/** Which predicted links to push, and how much.  Probabilities and durations are exact reals. */
module Prefetching {
  import opened Prelude

  datatype PolicyConfig = PolicyConfig(
    threshold: real, budget: int,
    handoverThreshold: real, handoverBudget: int, handoverBudgetPerSecond: int,
    maxBudget: int, meteredFactor: real, defaultSize: nat,
    depth2K: nat, depth2MinOutage: real, pushStopMargin: real, maxBacklog: nat)

  datatype Outlook = Outlook(imminent: bool, outage: real, metered: bool)

  datatype Link = Link(url: string, prob: real)

  datatype Decision = Decision(urls: seq<Link>, threshold: real, budget: int, planned: nat)

  /** Towards zero, as int() does. */
  function Truncate(x: real): int {
    if x >= 0.0 then x.Floor else -((-x).Floor)
  }

  /** The longer the predicted outage, the more. */
  function Extra(perSecond: int, outage: real): int {
    Truncate(Share(perSecond, if outage > 0.0 then outage else 0.0))
  }

  function Share(amount: int, factor: real): real { amount as real * factor }

  function RawLimits(c: PolicyConfig, handover: bool, outage: real): (real, int) {
    if handover then
      (c.handoverThreshold, c.handoverBudget + Extra(c.handoverBudgetPerSecond, outage))
    else (c.threshold, c.budget)
  }

  function Limits(c: PolicyConfig, adaptive: bool, o: Outlook): (r: (real, int))
    ensures r.1 <= c.maxBudget
  {
    var (threshold, budget) := RawLimits(c, adaptive && o.imminent, o.outage);
    (threshold, Min(Metered(budget, c.meteredFactor, o.metered), c.maxBudget))
  }

  /** Prefetch less on a metered link. */
  function Metered(budget: int, factor: real, metered: bool): int {
    if metered then Truncate(Share(budget, factor)) else budget
  }

  function Depth2K(c: PolicyConfig, adaptive: bool, o: Outlook): nat {
    if adaptive && o.imminent && o.outage >= c.depth2MinOutage then c.depth2K else 0
  }

  // ----------------------------------------------------------------------------------- ranking

  ghost predicate DistinctUrls(links: seq<Link>) {
    forall i, j :: 0 <= i < j < |links| ==> links[i].url != links[j].url
  }

  ghost predicate Descending(links: seq<Link>) {
    forall i, j :: 0 <= i < j < |links| ==> links[i].prob >= links[j].prob
  }

  /** Behind everything at least as likely. */
  function Insert(sorted: seq<Link>, x: Link): seq<Link> {
    if sorted == [] || sorted[|sorted| - 1].prob >= x.prob then sorted + [x]
    else Insert(sorted[..|sorted| - 1], x) + [sorted[|sorted| - 1]]
  }

  /** The most likely first; equally likely links stay in the order they were predicted. */
  function Ranked(links: seq<Link>): seq<Link> {
    if links == [] then [] else Insert(Ranked(links[..|links| - 1]), links[|links| - 1])
  }

  /** The links of one probability, in order. */
  function Equals(links: seq<Link>, prob: real): seq<Link> {
    if links == [] then []
    else
      var front, last := Equals(links[..|links| - 1], prob), links[|links| - 1];
      if last.prob == prob then front + [last] else front
  }

  lemma {:induction false} InsertMembers(sorted: seq<Link>, x: Link)
    ensures |Insert(sorted, x)| == |sorted| + 1
    ensures multiset(Insert(sorted, x)) == multiset(sorted) + multiset{x}
    ensures forall y :: y in Insert(sorted, x) <==> y == x || y in sorted
  {
    if sorted != [] && sorted[|sorted| - 1].prob < x.prob {
      InsertMembers(sorted[..|sorted| - 1], x);
      assert sorted == sorted[..|sorted| - 1] + [sorted[|sorted| - 1]];
    }
  }

  lemma {:induction false} InsertDescending(sorted: seq<Link>, x: Link)
    requires Descending(sorted)
    ensures Descending(Insert(sorted, x))
  {
    if sorted != [] && sorted[|sorted| - 1].prob < x.prob {
      var front, last := sorted[..|sorted| - 1], sorted[|sorted| - 1];
      InsertDescending(front, x);
      InsertMembers(front, x);
      forall y <- Insert(front, x) ensures y.prob >= last.prob {
        if y != x {
          var k :| 0 <= k < |front| && front[k] == y;
          assert sorted[k] == y;
        }
      }
    }
  }

  lemma {:induction false} InsertDistinct(sorted: seq<Link>, x: Link)
    requires DistinctUrls(sorted) && forall y <- sorted :: y.url != x.url
    ensures DistinctUrls(Insert(sorted, x))
  {
    if sorted != [] && sorted[|sorted| - 1].prob < x.prob {
      var front, last := sorted[..|sorted| - 1], sorted[|sorted| - 1];
      InsertDistinct(front, x);
      InsertMembers(front, x);
      forall y <- Insert(front, x) ensures y.url != last.url {
        if y != x {
          var k :| 0 <= k < |front| && front[k] == y;
          assert sorted[k] == y;
        }
      }
    }
  }

  lemma {:induction false} InsertIsStable(sorted: seq<Link>, x: Link, prob: real)
    ensures Equals(Insert(sorted, x), prob) == Equals(sorted + [x], prob)
  {
    assert (sorted + [x])[..|sorted|] == sorted;
    if sorted != [] && sorted[|sorted| - 1].prob < x.prob {
      var front, last := sorted[..|sorted| - 1], sorted[|sorted| - 1];
      InsertIsStable(front, x, prob);
      assert (front + [x])[..|front|] == front;
      assert (Insert(front, x) + [last])[..|Insert(front, x)|] == Insert(front, x);
    }
  }

  /** Ranking is the stable sort by falling probability. */
  lemma {:induction false} RankedIsStableSort(links: seq<Link>, prob: real)
    ensures Descending(Ranked(links)) && multiset(Ranked(links)) == multiset(links)
    ensures Equals(Ranked(links), prob) == Equals(links, prob)
  {
    if links != [] {
      var front, last := links[..|links| - 1], links[|links| - 1];
      RankedIsStableSort(front, prob);
      InsertDescending(Ranked(front), last);
      InsertMembers(Ranked(front), last);
      InsertIsStable(Ranked(front), last, prob);
      SplitLast(links);
      EqualsSnoc(Ranked(front), last, prob);
      hide Insert, Descending;
    }
  }

  lemma SplitLast(links: seq<Link>)
    requires links != []
    ensures links == links[..|links| - 1] + [links[|links| - 1]]
    ensures multiset(links) == multiset(links[..|links| - 1]) + multiset{links[|links| - 1]}
  {
    assert links == links[..|links| - 1] + [links[|links| - 1]];
  }

  lemma EqualsSnoc(links: seq<Link>, x: Link, prob: real)
    ensures Equals(links + [x], prob) == Equals(links, prob) + if x.prob == prob then [x] else []
  {
    assert (links + [x])[..|links|] == links;
  }

  lemma {:induction false} RankedDistinct(links: seq<Link>)
    requires DistinctUrls(links)
    ensures DistinctUrls(Ranked(links)) && forall x :: x in Ranked(links) <==> x in links
  {
    if links != [] {
      var front, last := links[..|links| - 1], links[|links| - 1];
      RankedDistinct(front);
      InsertDistinct(Ranked(front), last);
      InsertMembers(Ranked(front), last);
      SplitLast(links);
    }
  }

  // ---------------------------------------------------------------------------------- deciding

  /** What a page is expected to cost; without a known size, the default. */
  function SizeOf(c: PolicyConfig, sizes: map<string, nat>, url: string): nat {
    if url in sizes then sizes[url] else c.defaultSize
  }

  function Total(c: PolicyConfig, sizes: map<string, nat>, urls: seq<Link>): nat {
    if urls == [] then 0 else Total(c, sizes, urls[..|urls| - 1]) + SizeOf(c, sizes, urls[|urls| - 1].url)
  }

  datatype Ask = Ask(threshold: real, budget: int, sizes: map<string, nat>, cached: set<string>)

  predicate Eligible(a: Ask, x: Link) { x.prob >= a.threshold && x.url !in a.cached }

  /** What is taken from the first n ranked links. */
  function Taken(c: PolicyConfig, a: Ask, ranked: seq<Link>): seq<Link> {
    if ranked == [] then []
    else
      var before, x := Taken(c, a, ranked[..|ranked| - 1]), ranked[|ranked| - 1];
      if Eligible(a, x) && Room(c, a, before, x) then before + [x]
      else before
  }

  function TheAsk(c: PolicyConfig, adaptive: bool, o: Outlook, sizes: map<string, nat>, cached: set<string>): Ask {
    var (threshold, budget) := Limits(c, adaptive, o);
    Ask(threshold, budget, sizes, cached)
  }

  function Plan(c: PolicyConfig, adaptive: bool, probs: seq<Link>, o: Outlook, sizes: map<string, nat>,
                cached: set<string>): seq<Link> {
    Taken(c, TheAsk(c, adaptive, o, sizes, cached), Ranked(probs))
  }

  /** The loop over the ranking, which stops at the first link that is not likely enough. */
  method Decide(c: PolicyConfig, adaptive: bool, probs: seq<Link>, o: Outlook, sizes: map<string, nat>,
                cached: set<string>)
    returns (d: Decision)
    ensures d.urls == Plan(c, adaptive, probs, o, sizes, cached)
    ensures d.planned == Total(c, sizes, d.urls)
    ensures (d.threshold, d.budget) == Limits(c, adaptive, o)
  {
    hide Limits, Ranked, Taken, Insert;
    var (threshold, budget) := Limits(c, adaptive, o);
    var ranked := Ranked(probs);
    RankedIsStableSort(probs, 0.0);
    var chosen: seq<Link> := [];
    var planned := 0;
    ghost var a := TheAsk(c, adaptive, o, sizes, cached);
    TakenNone(c, a, ranked);
    var i := 0;
    while i < |ranked| && ranked[i].prob >= threshold
      invariant i <= |ranked|
      invariant chosen == Taken(c, a, ranked[..i]) && planned == Total(c, sizes, chosen)
    {
      var x := ranked[i];
      TakenNext(c, a, ranked, i);
      if x.url !in cached {
        var size := SizeOf(c, sizes, x.url);
        if planned + size <= budget {
          TotalSnoc(c, sizes, chosen, x);
          chosen := chosen + [x];
          planned := planned + size;
        }
      }
      i := i + 1;
    }
    NothingLikelyLeft(c, a, ranked, i);
    d := Decision(chosen, threshold, budget, planned);
  }

  lemma TotalSnoc(c: PolicyConfig, sizes: map<string, nat>, urls: seq<Link>, x: Link)
    ensures Total(c, sizes, urls + [x]) == Total(c, sizes, urls) + SizeOf(c, sizes, x.url)
  {
    assert (urls + [x])[..|urls|] == urls;
  }

  predicate Room(c: PolicyConfig, a: Ask, before: seq<Link>, x: Link) {
    Total(c, a.sizes, before) + SizeOf(c, a.sizes, x.url) <= a.budget
  }

  lemma TakenNone(c: PolicyConfig, a: Ask, ranked: seq<Link>)
    ensures Taken(c, a, ranked[..0]) == []
  {}

  lemma TakenNext(c: PolicyConfig, a: Ask, ranked: seq<Link>, i: nat)
    requires i < |ranked|
    ensures var before := Taken(c, a, ranked[..i]);
            Taken(c, a, ranked[..i + 1]) ==
              (if Eligible(a, ranked[i]) && Room(c, a, before, ranked[i]) then before + [ranked[i]] else before)
  {
    assert ranked[..i + 1][..i] == ranked[..i];
  }

  /** Behind a link that is not likely enough there is none that is. */
  lemma {:induction false} NothingLikelyLeft(c: PolicyConfig, a: Ask, ranked: seq<Link>, i: nat)
    requires Descending(ranked) && i <= |ranked| && (i < |ranked| ==> ranked[i].prob < a.threshold)
    ensures Taken(c, a, ranked) == Taken(c, a, ranked[..i])
    decreases |ranked|
  {
    if i == |ranked| {
      assert ranked[..i] == ranked;
    } else {
      assert ranked[|ranked| - 1].prob <= ranked[i].prob;
      NothingLikelyLeft(c, a, ranked[..|ranked| - 1], i);
      assert ranked[..|ranked| - 1][..i] == ranked[..i];
    }
  }

  // ---------------------------------------------------------------------------------- theorems

  lemma {:induction false} TakenMembers(c: PolicyConfig, a: Ask, ranked: seq<Link>)
    ensures forall x <- Taken(c, a, ranked) :: x in ranked && Eligible(a, x)
  {
    if ranked != [] {
      TakenMembers(c, a, ranked[..|ranked| - 1]);
      hide Room;
    }
  }

  lemma {:induction false} TakenOrdered(c: PolicyConfig, a: Ask, ranked: seq<Link>)
    requires Descending(ranked) && DistinctUrls(ranked)
    ensures Descending(Taken(c, a, ranked)) && DistinctUrls(Taken(c, a, ranked))
  {
    hide Room, Eligible;
    if ranked != [] {
      var front, x := ranked[..|ranked| - 1], ranked[|ranked| - 1];
      TakenOrdered(c, a, front);
      TakenMembers(c, a, front);
      LastOne(ranked);
      hide Taken;
      AppendLast(Taken(c, a, front), front, x);
      TakenLast(c, a, ranked);
    }
  }

  lemma TakenLast(c: PolicyConfig, a: Ask, ranked: seq<Link>)
    requires ranked != []
    ensures var before := Taken(c, a, ranked[..|ranked| - 1]);
            Taken(c, a, ranked) == before || Taken(c, a, ranked) == before + [ranked[|ranked| - 1]]
  {}

  lemma LastOne(ranked: seq<Link>)
    requires Descending(ranked) && DistinctUrls(ranked) && ranked != []
    ensures forall y <- ranked[..|ranked| - 1] :: y.prob >= ranked[|ranked| - 1].prob
              && y.url != ranked[|ranked| - 1].url
  {}

  lemma AppendLast(taken: seq<Link>, front: seq<Link>, x: Link)
    requires Descending(taken) && DistinctUrls(taken) && forall y <- taken :: y in front
    requires forall y <- front :: y.prob >= x.prob && y.url != x.url
    ensures Descending(taken + [x]) && DistinctUrls(taken + [x])
  {
    forall i | 0 <= i < |taken| ensures taken[i].prob >= x.prob && taken[i].url != x.url {
      assert taken[i] in front;
    }
  }

  lemma {:induction false} TakenFits(c: PolicyConfig, a: Ask, ranked: seq<Link>)
    ensures var t := Taken(c, a, ranked); t != [] ==> Total(c, a.sizes, t) <= a.budget
  {
    if ranked != [] {
      var front, x := ranked[..|ranked| - 1], ranked[|ranked| - 1];
      TakenFits(c, a, front);
      TotalSnoc(c, a.sizes, Taken(c, a, front), x);
    }
  }

  lemma {:induction false} TakenLeavesNoRoom(c: PolicyConfig, a: Ask, ranked: seq<Link>, k: nat)
    requires k < |ranked| && Eligible(a, ranked[k]) && ranked[k] !in Taken(c, a, ranked)
    ensures !Room(c, a, Taken(c, a, ranked), ranked[k])
  {
    var front, x := ranked[..|ranked| - 1], ranked[|ranked| - 1];
    var before := Taken(c, a, front);
    TotalSnoc(c, a.sizes, before, x);
    if k < |front| {
      assert forall y <- before :: y in before + [x];
      TakenLeavesNoRoom(c, a, front, k);
    }
  }

  /** A plan fits its budget, holds only likely pages the client lacks, each once and the most likely
      first, and is maximal: no such page left out would fit into what is left. */
  lemma PlanIsMaximal(c: PolicyConfig, adaptive: bool, probs: seq<Link>, o: Outlook, sizes: map<string, nat>,
                      cached: set<string>)
    requires DistinctUrls(probs)
    ensures var t, a := Plan(c, adaptive, probs, o, sizes, cached), TheAsk(c, adaptive, o, sizes, cached);
            && (t != [] ==> Total(c, sizes, t) <= a.budget)
            && Descending(t) && DistinctUrls(t)
            && (forall x <- t :: x in probs && Eligible(a, x))
            && (forall x <- probs :: Eligible(a, x) && x !in t ==> !Room(c, a, t, x))
  {
    hide Taken, Ranked, Room, Eligible, Descending, DistinctUrls, Total, Limits;
    var a, ranked := TheAsk(c, adaptive, o, sizes, cached), Ranked(probs);
    RankedIsStableSort(probs, 0.0);
    RankedDistinct(probs);
    TakenMembers(c, a, ranked);
    TakenOrdered(c, a, ranked);
    TakenFits(c, a, ranked);
    forall x <- probs | Eligible(a, x) && x !in Taken(c, a, ranked) ensures !Room(c, a, Taken(c, a, ranked), x) {
      assert x in ranked;
      var k :| 0 <= k < |ranked| && ranked[k] == x;
      TakenLeavesNoRoom(c, a, ranked, k);
    }
  }

  /** A rival plan: any choice among the eligible pages. */
  function Picked(ranked: seq<Link>, urls: set<string>): seq<Link> {
    if ranked == [] then []
    else
      var before, x := Picked(ranked[..|ranked| - 1], urls), ranked[|ranked| - 1];
      if x.url in urls then before + [x] else before
  }

  ghost predicate Rival(c: PolicyConfig, a: Ask, ranked: seq<Link>, urls: set<string>) {
    && (forall x <- Picked(ranked, urls) :: Eligible(a, x))
    && (Picked(ranked, urls) != [] ==> Total(c, a.sizes, Picked(ranked, urls)) <= a.budget)
  }

  lemma {:induction false} PickedPrefix(c: PolicyConfig, a: Ask, ranked: seq<Link>, urls: set<string>, n: nat)
    requires n <= |ranked|
    ensures Picked(ranked[..n], urls) <= Picked(ranked, urls)
    ensures Total(c, a.sizes, Picked(ranked[..n], urls)) <= Total(c, a.sizes, Picked(ranked, urls))
  {
    if n == |ranked| {
      assert ranked[..n] == ranked;
    } else {
      PickedPrefix(c, a, ranked[..|ranked| - 1], urls, n);
      assert ranked[..|ranked| - 1][..n] == ranked[..n];
      TotalSnoc(c, a.sizes, Picked(ranked[..|ranked| - 1], urls), ranked[|ranked| - 1]);
    }
  }

  lemma PickedIsTaken(c: PolicyConfig, a: Ask, ranked: seq<Link>, urls: set<string>, i: nat)
    requires Rival(c, a, ranked, urls) && i < |ranked| && ranked[i].url in urls
    requires Picked(ranked[..i], urls) == Taken(c, a, ranked[..i])
    ensures Picked(ranked[..i + 1], urls) == Taken(c, a, ranked[..i + 1])
  {
    TakenNext(c, a, ranked, i);
    assert ranked[..i + 1][..i] == ranked[..i];
    PickedPrefix(c, a, ranked, urls, i + 1);
    TotalSnoc(c, a.sizes, Picked(ranked[..i], urls), ranked[i]);
    assert ranked[i] in Picked(ranked[..i + 1], urls);
  }

  /** Link i is taken by the plan but not by the rival, which agrees with the plan on all likelier links. */
  ghost predicate TakesMore(c: PolicyConfig, a: Ask, ranked: seq<Link>, urls: set<string>, i: nat) {
    && i < |ranked| && ranked[i].url !in urls
    && Picked(ranked[..i], urls) == Taken(c, a, ranked[..i])
    && Taken(c, a, ranked[..i + 1]) == Taken(c, a, ranked[..i]) + [ranked[i]]
  }

  lemma {:induction false} FirstDifference(c: PolicyConfig, a: Ask, ranked: seq<Link>, urls: set<string>, n: nat)
    requires Rival(c, a, ranked, urls) && n <= |ranked|
    ensures Picked(ranked[..n], urls) == Taken(c, a, ranked[..n]) || exists i :: TakesMore(c, a, ranked, urls, i)
  {
    if n > 0 {
      FirstDifference(c, a, ranked, urls, n - 1);
      var i := n - 1;
      if Picked(ranked[..i], urls) == Taken(c, a, ranked[..i]) {
        if ranked[i].url in urls {
          PickedIsTaken(c, a, ranked, urls, i);
        } else {
          TakenNext(c, a, ranked, i);
          assert ranked[..n][..i] == ranked[..i];
          assert Picked(ranked[..n], urls) == Picked(ranked[..i], urls);
          assert Picked(ranked[..n], urls) == Taken(c, a, ranked[..n]) || TakesMore(c, a, ranked, urls, i);
        }
      }
    }
  }

  /** No affordable choice beats the plan where it matters: any other one first differs from it, going down
      the ranking, at a page that the plan takes and the other leaves out. */
  lemma PlanIsLexicallyBest(c: PolicyConfig, adaptive: bool, probs: seq<Link>, o: Outlook, sizes: map<string, nat>,
                            cached: set<string>, urls: set<string>)
    requires Rival(c, TheAsk(c, adaptive, o, sizes, cached), Ranked(probs), urls)
    ensures var t := Plan(c, adaptive, probs, o, sizes, cached);
            || Picked(Ranked(probs), urls) == t
            || exists i :: TakesMore(c, TheAsk(c, adaptive, o, sizes, cached), Ranked(probs), urls, i)
  {
    var ranked := Ranked(probs);
    FirstDifference(c, TheAsk(c, adaptive, o, sizes, cached), ranked, urls, |ranked|);
    assert ranked[..|ranked|] == ranked;
  }

  // --------------------------------------------------------------- the outage plan and the normal one

  lemma TruncateMonotone(x: real, y: real)
    requires x <= y
    ensures Truncate(x) <= Truncate(y)
  {}

  lemma ShareGrows(a: int, b: int, f: real)
    requires a <= b && f >= 0.0
    ensures Share(a, f) <= Share(b, f)
  {
    ProductGrows(f, a as real, b as real);
  }

  lemma ShareGrowsWith(amount: int, f: real, g: real)
    requires amount >= 0 && f <= g
    ensures Share(amount, f) <= Share(amount, g)
  {
    ProductGrows(amount as real, f, g);
  }

  lemma ProductGrows(k: real, a: real, b: real)
    requires k >= 0.0 && a <= b
    ensures k * a <= k * b
  {
    var d := b - a;
    ProductNonNegative(k, d);
    assert k * b == k * a + k * d;
  }

  lemma ProductNonNegative(k: real, d: real)
    requires k >= 0.0 && d >= 0.0
    ensures k * d >= 0.0
  {}

  /** n is x cut off towards zero. */
  predicate CutOff(n: int, x: real) {
    if x >= 0.0 then n as real <= x < n as real + 1.0 else n as real - 1.0 < x <= n as real
  }

  lemma TruncateCutsOff(x: real)
    ensures CutOff(Truncate(x), x)
  {}

  /** What a plan may cost: the normal budget, or while an outage is predicted the outage budget and so much for
      every second of it, cut off to whole bytes; of that, on a metered link, the metered share, cut off again;
      and never more than the maximum. */
  ghost predicate Affords(c: PolicyConfig, adaptive: bool, o: Outlook, budget: int, extra: int, share: int) {
    && (adaptive && o.imminent && o.outage > 0.0 ==>
          CutOff(extra, Share(c.handoverBudgetPerSecond, o.outage)))
    && (!(adaptive && o.imminent && o.outage > 0.0) ==> extra == 0)
    && var whole := (if adaptive && o.imminent then c.handoverBudget else c.budget) + extra;
       && (if o.metered then CutOff(share, Share(whole, c.meteredFactor)) else share == whole)
       && budget <= share && budget <= c.maxBudget && (budget == share || budget == c.maxBudget)
  }

  lemma ExtraIs(perSecond: int, outage: real)
    ensures outage > 0.0 ==> CutOff(Extra(perSecond, outage), Share(perSecond, outage))
    ensures outage <= 0.0 ==> Extra(perSecond, outage) == 0
  {
    TruncateCutsOff(Share(perSecond, if outage > 0.0 then outage else 0.0));
  }

  lemma MeteredIs(budget: int, factor: real, metered: bool)
    ensures var share := Metered(budget, factor, metered);
            if metered then CutOff(share, Share(budget, factor)) else share == budget
  {
    TruncateCutsOff(Share(budget, factor));
  }

  /** The limits, whatever the configuration and the outlook; the threshold is the one of the outlook. */
  lemma LimitsAre(c: PolicyConfig, adaptive: bool, o: Outlook)
    ensures exists extra, share :: Affords(c, adaptive, o, Limits(c, adaptive, o).1, extra, share)
    ensures Limits(c, adaptive, o).0 == if adaptive && o.imminent then c.handoverThreshold else c.threshold
  {
    var outage := adaptive && o.imminent;
    var extra := if outage then Extra(c.handoverBudgetPerSecond, o.outage) else 0;
    var whole := (if outage then c.handoverBudget else c.budget) + extra;
    var share := Metered(whole, c.meteredFactor, o.metered);
    ExtraIs(c.handoverBudgetPerSecond, o.outage);
    MeteredIs(whole, c.meteredFactor, o.metered);
    hide Extra, Metered, CutOff, Share;
    assert Affords(c, adaptive, o, Limits(c, adaptive, o).1, extra, share);
  }

  /** The outage settings are no tighter than the normal ones. */
  predicate Generous(c: PolicyConfig) {
    && c.handoverThreshold <= c.threshold && c.handoverBudget >= c.budget
    && c.handoverBudgetPerSecond >= 0 && c.meteredFactor >= 0.0
  }

  lemma OutageLimitsNoTighter(c: PolicyConfig, adaptive: bool, outage: real, metered: bool)
    requires Generous(c)
    ensures var normal, handover := Limits(c, adaptive, Outlook(false, 0.0, metered)),
        Limits(c, adaptive, Outlook(true, outage, metered));
            handover.0 <= normal.0 && handover.1 >= normal.1
  {
    hide RawLimits, Metered, Min;
    var raw0, raw1 := RawLimits(c, false, 0.0), RawLimits(c, adaptive, outage);
    RawNoTighter(c, adaptive, outage);
    MeteredMonotone(raw0.1, raw1.1, c.meteredFactor, metered);
    MinMonotone(Metered(raw0.1, c.meteredFactor, metered), Metered(raw1.1, c.meteredFactor, metered), c.maxBudget);
    assert Limits(c, adaptive, Outlook(true, outage, metered)) ==
           (raw1.0, Min(Metered(raw1.1, c.meteredFactor, metered), c.maxBudget));
    NormalLimits(c, adaptive, metered);
  }

  lemma NormalLimits(c: PolicyConfig, adaptive: bool, metered: bool)
    ensures var raw := RawLimits(c, false, 0.0);
            Limits(c, adaptive, Outlook(false, 0.0, metered)) ==
                (raw.0, Min(Metered(raw.1, c.meteredFactor, metered), c.maxBudget))
  {
    hide RawLimits, Metered, Min;
  }

  lemma MinMonotone(a: int, b: int, c: int)
    requires a <= b
    ensures Min(a, c) <= Min(b, c)
  {}

  lemma MeteredMonotone(a: int, b: int, factor: real, metered: bool)
    requires a <= b && factor >= 0.0
    ensures Metered(a, factor, metered) <= Metered(b, factor, metered)
  {
    hide Truncate, Share;
    ShareGrows(a, b, factor);
    TruncateMonotone(Share(a, factor), Share(b, factor));
  }

  lemma RawNoTighter(c: PolicyConfig, handover: bool, outage: real)
    requires Generous(c)
    ensures RawLimits(c, handover, outage).0 <= RawLimits(c, false, 0.0).0
    ensures RawLimits(c, false, 0.0).1 <= RawLimits(c, handover, outage).1
  {
    ExtraNonNegative(c.handoverBudgetPerSecond, outage);
    hide Extra;
  }

  lemma ExtraNonNegative(perSecond: int, outage: real)
    requires perSecond >= 0
    ensures Extra(perSecond, outage) >= 0
  {
    var seconds := if outage > 0.0 then outage else 0.0;
    ShareGrows(0, perSecond, seconds);
    assert Share(0, seconds) == 0.0;
    hide Share;
  }

  lemma {:induction false} TakenGrows(c: PolicyConfig, a: Ask, b: Ask, ranked: seq<Link>)
    requires Descending(ranked) && a.sizes == b.sizes == map[] && a.cached == b.cached
    requires b.threshold <= a.threshold && a.budget <= b.budget
    ensures Taken(c, a, ranked) <= Taken(c, b, ranked)
    ensures ranked != [] && Taken(c, a, ranked) != Taken(c, b, ranked) ==>
              ranked[|ranked| - 1].prob < a.threshold || Total(c, map[], Taken(c, a, ranked)) + c.defaultSize > a.budget
  {
    if ranked != [] {
      var front, x := ranked[..|ranked| - 1], ranked[|ranked| - 1];
      TakenGrows(c, a, b, front);
      TotalSnoc(c, map[], Taken(c, a, front), x);
      assert front != [] ==> front[|front| - 1].prob >= x.prob;
    }
  }

  /** With the same predictions and default sizes, the normal plan is the first part of the outage plan,
      on metered links as well. */
  lemma OutagePlanExtendsNormal(c: PolicyConfig, adaptive: bool, probs: seq<Link>, cached: set<string>, outage: real,
                                metered: bool)
    requires Generous(c)
    ensures Plan(c, adaptive, probs, Outlook(false, 0.0, metered), map[], cached)
         <= Plan(c, adaptive, probs, Outlook(true, outage, metered), map[], cached)
  {
    hide Ranked, Taken, Limits, Descending;
    OutageLimitsNoTighter(c, adaptive, outage, metered);
    RankedIsStableSort(probs, 0.0);
    TakenGrows(c, TheAsk(c, adaptive, Outlook(false, 0.0, metered), map[], cached),
               TheAsk(c, adaptive, Outlook(true, outage, metered), map[], cached), Ranked(probs));
  }

  lemma ExtraGrows(perSecond: int, shorter: real, longer: real)
    requires perSecond >= 0 && shorter <= longer
    ensures Extra(perSecond, shorter) <= Extra(perSecond, longer)
  {
    var a, b := if shorter > 0.0 then shorter else 0.0, if longer > 0.0 then longer else 0.0;
    hide Truncate, Share;
    ShareGrowsWith(perSecond, a, b);
    TruncateMonotone(Share(perSecond, a), Share(perSecond, b));
  }

  /** The longer the predicted outage, the more is pushed: a plan for a shorter one is the first part of the
      plan for a longer one. */
  lemma LongerOutageExtendsPlan(c: PolicyConfig, adaptive: bool, probs: seq<Link>, cached: set<string>, shorter: real,
                                longer: real, metered: bool)
    requires c.handoverBudgetPerSecond >= 0 && c.meteredFactor >= 0.0 && shorter <= longer
    ensures Plan(c, adaptive, probs, Outlook(true, shorter, metered), map[], cached)
         <= Plan(c, adaptive, probs, Outlook(true, longer, metered), map[], cached)
  {
    hide Ranked, Taken, Extra, Metered, Min, Descending;
    ExtraGrows(c.handoverBudgetPerSecond, shorter, longer);
    var b0, b1 := RawLimits(c, adaptive, shorter).1, RawLimits(c, adaptive, longer).1;
    MeteredMonotone(b0, b1, c.meteredFactor, metered);
    MinMonotone(Metered(b0, c.meteredFactor, metered), Metered(b1, c.meteredFactor, metered), c.maxBudget);
    RankedIsStableSort(probs, 0.0);
    TakenGrows(c, TheAsk(c, adaptive, Outlook(true, shorter, metered), map[], cached),
               TheAsk(c, adaptive, Outlook(true, longer, metered), map[], cached), Ranked(probs));
  }

  // --------------------------------------------------------------------- with known sizes: exactly when

  lemma {:induction false} TakenPrefix(c: PolicyConfig, a: Ask, ranked: seq<Link>, n: nat)
    requires n <= |ranked|
    ensures Taken(c, a, ranked[..n]) <= Taken(c, a, ranked)
    ensures FromRest(Taken(c, a, ranked), |Taken(c, a, ranked[..n])|, ranked[n..])
    decreases |ranked| - n
  {
    hide Room, Eligible, FromRest;
    if n == |ranked| {
      assert ranked[..n] == ranked;
      NoRest(Taken(c, a, ranked), ranked[n..]);
    } else {
      TakenPrefix(c, a, ranked, n + 1);
      TakenNext(c, a, ranked, n);
      hide Taken;
      MoreRest(Taken(c, a, ranked), Taken(c, a, ranked[..n]), Taken(c, a, ranked[..n + 1]), ranked, n);
    }
  }

  /** What was taken from position k on came from the rest. */
  ghost predicate FromRest(taken: seq<Link>, k: nat, rest: seq<Link>) {
    forall j :: k <= j < |taken| ==> taken[j] in rest
  }

  lemma NoRest(taken: seq<Link>, rest: seq<Link>)
    ensures FromRest(taken, |taken|, rest)
  {}

  lemma MoreRest(all: seq<Link>, before: seq<Link>, after: seq<Link>, ranked: seq<Link>, n: nat)
    requires n < |ranked| && after <= all && (after == before || after == before + [ranked[n]])
    requires FromRest(all, |after|, ranked[n + 1..])
    ensures FromRest(all, |before|, ranked[n..])
  {
    assert ranked[n..] == [ranked[n]] + ranked[n + 1..];
  }

  /** Link i does not fit, though something behind it still does, and would fit into the bigger budget. */
  ghost predicate Tempting(c: PolicyConfig, a: Ask, bigger: int, ranked: seq<Link>, i: nat) {
    && i < |ranked| && Eligible(a, ranked[i])
    && Taken(c, a, ranked[..i]) != Taken(c, a, ranked)
    && !Room(c, a, Taken(c, a, ranked[..i]), ranked[i])
    && Room(c, a.(budget := bigger), Taken(c, a, ranked[..i]), ranked[i])
  }

  /** b asks for more than a: a lower threshold, a bigger budget. */
  ghost predicate AsksMore(a: Ask, b: Ask) {
    b.threshold <= a.threshold && a.budget <= b.budget && a.sizes == b.sizes && a.cached == b.cached
  }

  /** As far as nothing is tempting, both take the same, or the smaller plan is finished. */
  lemma {:induction false} SameUntilTempted(c: PolicyConfig, a: Ask, b: Ask, ranked: seq<Link>, n: nat)
    requires Descending(ranked) && AsksMore(a, b) && n <= |ranked|
    requires forall i :: 0 <= i < n ==> !Tempting(c, a, b.budget, ranked, i)
    ensures || Taken(c, a, ranked[..n]) == Taken(c, b, ranked[..n])
            || (Taken(c, a, ranked[..n]) == Taken(c, a, ranked) && Taken(c, a, ranked) <= Taken(c, b, ranked[..n]))
  {
    if n > 0 {
      var i := n - 1;
      SameUntilTempted(c, a, b, ranked, i);
      assert !Tempting(c, a, b.budget, ranked, i);
      TakenNext(c, a, ranked, i);
      TakenNext(c, b, ranked, i);
      TakenPrefix(c, a, ranked, i);
      TakenPrefix(c, a, ranked, n);
      if ranked[i].prob < a.threshold {
        NothingLikelyLeft(c, a, ranked, i);
      }
      SameRoom(c, a, b, Taken(c, a, ranked[..i]), ranked[i]);
      hide Taken, Room, Descending;
    }
  }

  lemma SameRoom(c: PolicyConfig, a: Ask, b: Ask, before: seq<Link>, x: Link)
    requires AsksMore(a, b)
    ensures Room(c, a, before, x) ==> Room(c, b, before, x)
    ensures Room(c, b, before, x) == Room(c, a.(budget := b.budget), before, x)
  {}

  lemma {:induction false} FirstTempting(c: PolicyConfig, a: Ask, bigger: int, ranked: seq<Link>,
                                         n: nat) returns (m: nat)
    requires Tempting(c, a, bigger, ranked, n)
    ensures m <= n && Tempting(c, a, bigger, ranked, m)
    ensures forall i :: 0 <= i < m ==> !Tempting(c, a, bigger, ranked, i)
  {
    hide Tempting;
    if j :| 0 <= j < n && Tempting(c, a, bigger, ranked, j) {
      m := FirstTempting(c, a, bigger, ranked, j);
    } else {
      m := n;
    }
  }

  lemma TemptedTakesAnother(c: PolicyConfig, a: Ask, b: Ask, ranked: seq<Link>, i: nat)
    requires Descending(ranked) && DistinctUrls(ranked) && AsksMore(a, b)
    requires Tempting(c, a, b.budget, ranked, i)
    requires forall j :: 0 <= j < i ==> !Tempting(c, a, b.budget, ranked, j)
    ensures !(Taken(c, a, ranked) <= Taken(c, b, ranked))
  {
    SameUntilTempted(c, a, b, ranked, i);
    TakenNext(c, a, ranked, i);
    TakenNext(c, b, ranked, i);
    SameRoom(c, a, b, Taken(c, a, ranked[..i]), ranked[i]);
    TakenPrefix(c, a, ranked, i);
    TakenPrefix(c, a, ranked, i + 1);
    TakenPrefix(c, b, ranked, i + 1);
    NotAgain(ranked, i);
    hide Taken, Room, Descending, DistinctUrls;
    assert FromRest(Taken(c, a, ranked), |Taken(c, a, ranked[..i + 1])|, ranked[i + 1..]);
    var x := |Taken(c, a, ranked[..i])|;
    assert Taken(c, b, ranked)[x] == ranked[i];
    assert Taken(c, a, ranked)[x] in ranked[i + 1..];
  }

  lemma NotAgain(ranked: seq<Link>, i: nat)
    requires DistinctUrls(ranked) && i < |ranked|
    ensures ranked[i] !in ranked[i + 1..]
  {}

  /** The exact condition, for any known sizes: the plan under the smaller limits is the first part of the
      plan under the larger ones if and only if no page that it passes over for want of room, with a later
      page still taken, would have had room under the larger budget. */
  lemma PlanIsExtendedExactlyWhen(c: PolicyConfig, adaptive: bool, probs: seq<Link>, o1: Outlook, o2: Outlook,
                                  sizes: map<string, nat>, cached: set<string>)
    requires DistinctUrls(probs)
    requires AsksMore(TheAsk(c, adaptive, o1, sizes, cached), TheAsk(c, adaptive, o2, sizes, cached))
    ensures var a, bigger := TheAsk(c, adaptive, o1, sizes, cached), TheAsk(c, adaptive, o2, sizes, cached).budget;
            Plan(c, adaptive, probs, o1, sizes, cached) <= Plan(c, adaptive, probs, o2, sizes, cached)
            <==> !exists i :: Tempting(c, a, bigger, Ranked(probs), i)
  {
    var a, b := TheAsk(c, adaptive, o1, sizes, cached), TheAsk(c, adaptive, o2, sizes, cached);
    var ranked := Ranked(probs);
    RankedIsStableSort(probs, 0.0);
    RankedDistinct(probs);
    assert ranked[..|ranked|] == ranked;
    hide Ranked, Taken, Limits, Tempting, Descending, DistinctUrls;
    if i :| Tempting(c, a, b.budget, ranked, i) {
      var m := FirstTempting(c, a, b.budget, ranked, i);
      TemptedTakesAnother(c, a, b, ranked, m);
    } else {
      SameUntilTempted(c, a, b, ranked, |ranked|);
    }
  }

  lemma RankPair(a: Link, b: Link)
    requires a.prob >= b.prob
    ensures Ranked([a, b]) == [a, b]
  {
    assert [a, b][..1] == [a] && [a][..0] == [];
    assert Ranked([a]) == [a];
  }

  lemma TakePair(c: PolicyConfig, ask: Ask, a: Link, b: Link)
    requires Eligible(ask, a) && Eligible(ask, b) && 0 < SizeOf(c, ask.sizes, b.url) < SizeOf(c, ask.sizes, a.url)
    requires ask.budget < SizeOf(c, ask.sizes, a.url) + SizeOf(c, ask.sizes, b.url)
    requires ask.budget >= SizeOf(c, ask.sizes, b.url)
    ensures Taken(c, ask, [a, b]) == if ask.budget < SizeOf(c, ask.sizes, a.url) then [b] else [a]
  {
    var ranked := [a, b];
    TakenNone(c, ask, ranked);
    TakenNext(c, ask, ranked, 0);
    TakenNext(c, ask, ranked, 1);
    assert ranked[..2] == ranked;
    TotalSnoc(c, ask.sizes, [], a);
    assert [] + [a] == [a];
    hide Taken;
  }

  /** An input where it is not: the bigger budget takes one bigger page instead. */
  lemma KnownSizesBreakThePrefix(c: PolicyConfig)
    requires c.threshold == c.handoverThreshold == 0.0 && c.handoverBudgetPerSecond == 0
    requires c.budget == 2 && c.handoverBudget == c.maxBudget == 3
    ensures var probs, sizes := [Link("a", 0.9), Link("b", 0.5)], map["a" := 3, "b" := 2];
            && Plan(c, true, probs, Outlook(false, 0.0, false), sizes, {}) == [Link("b", 0.5)]
            && Plan(c, true, probs, Outlook(true, 0.0, false), sizes, {}) == [Link("a", 0.9)]
  {
    var a, b, sizes := Link("a", 0.9), Link("b", 0.5), map["a" := 3, "b" := 2];
    RankPair(a, b);
    assert Extra(0, 0.0) == 0;
    var low, high := TheAsk(c, true, Outlook(false, 0.0, false), sizes, {}),
        TheAsk(c, true, Outlook(true, 0.0, false), sizes, {});
    assert low.budget == 2 && high.budget == 3;
    hide Ranked, Taken, Limits;
    TakePair(c, low, a, b);
    TakePair(c, high, a, b);
  }
}
