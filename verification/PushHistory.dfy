/** What the prefetch scheduler has to do, told from the history of views, hints and answers alone: when it
    plans again, for which outlook, and what becomes of every page on a plan. */
module PushHistory {
  import opened Prelude
  import opened Prefetching
  import opened PushScheduling
  import opened PushGuarantees
  import opened PushHeld

  // ------------------------------------------------------------------------- the record is the history

  /** The page that the reader is on. */
  function LastView(events: seq<Timed>): Option<string> {
    if events == [] then None
    else
      var front, e := events[..|events| - 1], events[|events| - 1].event;
      if e.View? then Some(e.url) else LastView(front)
  }

  /** What the client said last: whether a dropout is coming, how long, and whether the link is metered, which
      not every hint tells. */
  function LastTold(events: seq<Timed>): Outlook {
    if events == [] then Outlook(false, 0.0, false)
    else
      var before, e := LastTold(events[..|events| - 1]), events[|events| - 1].event;
      if !e.Hint? then before
      else Outlook(e.active, e.outage, if e.metered == None then before.metered else e.metered.value)
  }

  /** When the dropout is due, as announced by the last hint that told a time, unless a later one took it back. */
  function Due(margin: real, events: seq<Timed>): Option<real> {
    if events == [] then None
    else
      var before, x := Due(margin, events[..|events| - 1]), events[|events| - 1];
      if !x.event.Hint? then before
      else if !x.event.active then None
      else if x.event.eta == None then before
      else if x.event.eta.value <= margin then Some(x.now)
      else Some(x.now + x.event.eta.value - margin)
  }

  /** What the reader's own requests brought. */
  function AnsweredUrls(events: seq<Timed>): set<string> { set x <- events | x.event.Answered? :: x.event.url }

  lemma AnsweredSnoc(events: seq<Timed>, x: Timed)
    ensures AnsweredUrls(events + [x]) == AnsweredUrls(events) + (if x.event.Answered? then {x.event.url} else {})
  {
    assert forall y :: y in events + [x] <==> y in events || y == x;
  }

  lemma {:induction false} ToldIsTheHistory(c: Setup, events: seq<Timed>)
    ensures var s := Run(c, events);
            && s.outlook == LastTold(events)
            && s.offlineFrom == Due(c.policy.pushStopMargin, events)
            && (c.predicting ==> s.current == LastView(events))
  {
    hide After, Urls;
    if events != [] {
      var front, x := events[..|events| - 1], events[|events| - 1];
      ToldIsTheHistory(c, front);
      RecordStep(c, Run(c, front), x.now, x.event);
    }
  }

  lemma {:induction false} SentIsTheHistory(c: Setup, events: seq<Timed>)
    ensures Run(c, events).sent == AnsweredUrls(events) + Urls(Run(c, events).log)
  {
    if events == [] {
    } else {
      hide After, Urls, AnsweredUrls;
      var front, x := events[..|events| - 1], events[|events| - 1];
      SentIsTheHistory(c, front);
      RecordStep(c, Run(c, front), x.now, x.event);
      assert events == front + [x];
      AnsweredSnoc(front, x);
      var s, r := Run(c, front), Run(c, events);
      var answered := if x.event.Answered? then {x.event.url} else {};
      Regroup(AnsweredUrls(front), Urls(s.log), answered, Urls(r.log[|s.log|..]));
    }
  }

  lemma RecordIsTheHistory(c: Setup, events: seq<Timed>)
    ensures var s := Run(c, events);
            && s.outlook == LastTold(events)
            && s.offlineFrom == Due(c.policy.pushStopMargin, events)
            && (c.predicting ==> s.current == LastView(events))
            && s.sent == AnsweredUrls(events) + Urls(s.log)
  {
    hide *;
    ToldIsTheHistory(c, events);
    SentIsTheHistory(c, events);
  }

  lemma Regroup(a: set<string>, b: set<string>, x: set<string>, y: set<string>)
    ensures (a + b) + x + y == (a + x) + (b + y)
  {}

  lemma RecordStep(c: Setup, s: State, now: real, e: PushScheduling.Event)
    ensures var r := After(c, s, now, e);
            && (!e.Hint? ==> r.outlook == s.outlook && r.offlineFrom == s.offlineFrom)
            && (e.Hint? ==>
                  && r.outlook == Outlook(e.active, e.outage, if e.metered == None then s.outlook.metered
                                                              else e.metered.value)
                  && r.offlineFrom == (if !e.active then None else if e.eta == None then s.offlineFrom
                                       else if e.eta.value <= c.policy.pushStopMargin then Some(now)
                                       else Some(now + e.eta.value - c.policy.pushStopMargin)))
            && (c.predicting ==> r.current == if e.View? then Some(e.url) else s.current)
            && |s.log| <= |r.log|
            && r.sent == s.sent + (if e.Answered? then {e.url} else {}) + Urls(r.log[|s.log|..])
            && Urls(r.log) == Urls(s.log) + Urls(r.log[|s.log|..])
  {
    hide Moved;
    LogGrowth(c, s, now, e);
    var r := After(c, s, now, e);
    assert r.log == s.log + r.log[|s.log|..];
    assert forall x :: x in r.log <==> x in s.log || x in r.log[|s.log|..];
  }

  // ------------------------------------------------------------------------------ planning again

  /** A new task has replaced the old ones: it is the only one that is not cancelled, and has not started. */
  ghost predicate PlansAgain(s: State, r: State) {
    && r.prefetch == Some(|s.tasks|)
    && |r.tasks| == |s.tasks| + 1 && r.tasks[|s.tasks|].pc.Starting? && !r.tasks[|s.tasks|].cancelled
    && forall i :: 0 <= i < |s.tasks| ==> r.tasks[i] == s.tasks[i].(cancelled := true)
  }

  ghost predicate TasksStay(s: State, r: State) { r.tasks == s.tasks && r.prefetch == s.prefetch }

  /** Whether a dropout is due at this time. */
  predicate DropoutDue(c: Setup, events: seq<Timed>, now: real) {
    Offline(Due(c.policy.pushStopMargin, events), now)
  }

  /** A hint makes the server plan again, at once and for the outlook just told, exactly if it warns, the reader
      is on a page, pages are predicted and the dropout is not due yet; otherwise it leaves the tasks alone. */
  lemma HintPlansAgainExactlyWhen(c: Setup, events: seq<Timed>, hint: Timed)
    requires hint.event.Hint?
    ensures var s, r := Run(c, events), Run(c, events + [hint]);
            && r.outlook == LastTold(events + [hint])
            && r.outlook.imminent == hint.event.active && r.outlook.outage == hint.event.outage
            && (hint.event.metered.Some? ==> r.outlook.metered == hint.event.metered.value)
            && (hint.event.metered.None? ==> r.outlook.metered == s.outlook.metered)
            && r.log == s.log && r.sent == s.sent
            && (if c.predicting && hint.event.active && LastView(events).Some?
                     && !DropoutDue(c, events + [hint], hint.now)
                then PlansAgain(s, r) else TasksStay(s, r))
  {
    var all := events + [hint];
    assert all[..|events|] == events;
    RunSnoc(c, events, hint);
    RecordIsTheHistory(c, events);
    RecordIsTheHistory(c, all);
    RunKeepsOneLive(c, events);
    HintStep(c, Run(c, events), hint.now, hint.event);
    hide Run, After, OneLive, PlansAgain, Urls, AnsweredUrls;
    NoViewNoPage(c, events);
  }

  lemma HintStep(c: Setup, s: State, now: real, e: PushScheduling.Event)
    requires e.Hint? && OneLive(s.tasks, s.prefetch)
    ensures var r := After(c, s, now, e);
            && r.log == s.log && r.sent == s.sent
            && (if c.predicting && e.active && s.current.Some? && !Offline(r.offlineFrom, now)
                then PlansAgain(s, r) else TasksStay(s, r))
  {}

  lemma {:induction false} NoViewNoPage(c: Setup, events: seq<Timed>)
    ensures !c.predicting ==> Run(c, events).current.None?
  {
    if events != [] {
      NoViewNoPage(c, events[..|events| - 1]);
      hide Moved;
    }
  }

  /** Likewise a page view, whichever page it is. */
  lemma ViewPlansAgainExactlyWhen(c: Setup, events: seq<Timed>, view: Timed)
    requires view.event.View?
    ensures var s, r := Run(c, events), Run(c, events + [view]);
            && r.log == s.log && r.sent == s.sent && r.outlook == s.outlook
            && (if c.predicting && !DropoutDue(c, events, view.now) then PlansAgain(s, r) else TasksStay(s, r))
  {
    RunSnoc(c, events, view);
    RecordIsTheHistory(c, events);
    RunKeepsOneLive(c, events);
    hide Run;
  }

  /** Nothing else starts, replaces or cancels a task. */
  lemma OnlyViewsAndHintsPlan(c: Setup, events: seq<Timed>, x: Timed)
    requires !x.event.View? && !x.event.Hint?
    ensures var s, r := Run(c, events), Run(c, events + [x]);
            && r.prefetch == s.prefetch && |r.tasks| == |s.tasks|
            && (forall i :: 0 <= i < |s.tasks| ==> r.tasks[i].cancelled == s.tasks[i].cancelled)
            && (forall i :: 0 <= i < |s.tasks| && !(x.event.Resume? && x.event.task == i && !s.tasks[i].cancelled) ==>
                  r.tasks[i] == s.tasks[i])
  {
    RunSnoc(c, events, x);
    hide Run, Moved;
    if x.event.Resume? {
      ResumeKeepsCancelled(c, Run(c, events), x.now, x.event.task, x.event.outcome);
    }
  }

  /** A task that gets its prediction plans for the outlook last told, leaves out what the reader was given, by
      answer or by push, and sets its budget by that outlook, for good. */
  lemma PlanIsForWhatWasToldLast(c: Setup, events: seq<Timed>, x: Timed, probs: seq<Link>)
    requires x.event.Resume? && x.event.outcome == Predicted(Some(probs))
    requires x.event.task < |Run(c, events).tasks| && Run(c, events).tasks[x.event.task].pc.Starting?
    requires !Run(c, events).tasks[x.event.task].cancelled
    ensures var t := Run(c, events + [x]).tasks;
            var held := AnsweredUrls(events) + Urls(Run(c, events).log);
            && x.event.task < |t| && t[x.event.task].pc.Pushing? && t[x.event.task].pc.depth == 1
            && t[x.event.task].pc.todo == Plan(c.policy, c.adaptive, probs, LastTold(events), map[], held)
            && t[x.event.task].limit == Limits(c.policy, c.adaptive, LastTold(events)).1
            && t[x.event.task].probs == probs && !t[x.event.task].cancelled
  {
    RunSnoc(c, events, x);
    RecordIsTheHistory(c, events);
    hide Run, Plan, Limits, Urls, AnsweredUrls;
  }

  /** The budget of a plan never changes afterwards. */
  lemma BudgetStays(c: Setup, s: State, now: real, e: PushScheduling.Event, i: nat)
    requires i < |s.tasks| && !s.tasks[i].pc.Starting?
    ensures var r := After(c, s, now, e);
            i < |r.tasks| && r.tasks[i].limit == s.tasks[i].limit && r.tasks[i].probs == s.tasks[i].probs
                && !r.tasks[i].pc.Starting?
  {
    hide Plan, Limits, Picks, Depth2K, Parents;
  }

  // -------------------------------------------------------------------- what becomes of every page

  /** The push loop ends at the head of the loop when the list or the budget is used up or the dropout is due,
      and while waiting for the backlog when the dropout is due; at no other place and for no other reason. */
  predicate LoopEnds(t: Task, off: bool, o: Outcome)
    requires t.pc.Pushing?
  {
    || (t.pc.stage.Head? && o.Next? && (t.pc.todo == [] || t.spent >= t.limit || off))
    || (t.pc.stage.Waiting? && o.Backlog? && off)
  }

  /** Behind the first loop comes the second click if a long outage is predicted, and otherwise nothing; behind
      a later one the next child page. */
  lemma BehindTheLoop(c: Setup, outlook: Outlook, sent: set<string>, off: bool, t: Task, o: Outcome)
    requires t.pc.Pushing?
    ensures var pc := Moved(c, outlook, sent, off, t, o).pc;
            && (!pc.Pushing? <==> LoopEnds(t, off, o))
            && (LoopEnds(t, off, o) && t.pc.depth == 1 ==>
                  if c.adaptive && outlook.imminent && outlook.outage >= c.policy.depth2MinOutage
                     && c.policy.depth2K > 0
                  then pc == Expanding(c.policy.depth2K, Parents(c, outlook, t.probs))
                  else pc.Done?)
            && (LoopEnds(t, off, o) && t.pc.depth != 1 ==> pc == Children(t.pc.k, t.pc.rest))
  {
    hide Plan, Limits, Picks, Parents;
  }

  /** All pages that were expanded have their turn, in their order, until the budget is used up or the dropout is
      due; one of which nothing could be predicted is passed over. */
  lemma EveryChildHasItsTurn(c: Setup, outlook: Outlook, sent: set<string>, off: bool, t: Task, o: Outcome)
    requires t.pc.Children? || t.pc.Expanding?
    ensures var pc := Moved(c, outlook, sent, off, t, o).pc;
            && (t.pc.Expanding? ==>
                  pc == if o.Expanded? && |o.answers| == |t.pc.parents| then Children(t.pc.k, o.answers) else t.pc)
            && (t.pc.Children? ==>
                  && (pc.Done? <==> o.Next? && (t.pc.rest == [] || t.spent >= t.limit || off))
                  && (o.Next? && !pc.Done? && t.pc.rest[0] == [] ==> pc == Children(t.pc.k, t.pc.rest[1..]))
                  && (o.Next? && !pc.Done? && t.pc.rest[0] != [] ==>
                        pc == Pushing(2, Picks(t.pc.rest[0], sent, t.pc.k), Head, t.pc.k, t.pc.rest[1..])))
  {
    hide Plan, Limits, Picks, Parents;
  }

  /** Page x of task i's list was pushed by it. */
  ghost predicate WasPushed(log: seq<Pushed>, i: nat, x: Link) {
    exists e :: e in log && e.plan == i && e.url == x.url
  }

  predicate PushedLast(log: seq<Pushed>, i: nat, x: Link) {
    log != [] && log[|log| - 1].plan == i && log[|log| - 1].url == x.url
  }

  /** The page that was fetched cannot be had, or does not fit what is left of the budget. */
  predicate Unsuitable(t: Task, o: Outcome) {
    t.pc.Pushing? && t.pc.stage.Fetching? && o.Page? && (o.wire.None? || t.spent + o.wire.value > t.limit)
  }

  /** At step q page x had its turn with task i, and could not be fetched or did not fit what was left of the
      budget. */
  ghost predicate PassedOver(c: Setup, events: seq<Timed>, i: nat, x: Link, q: nat) {
    && q < |events| && events[q].event.Resume? && events[q].event.task == i
    && PushingAt(Run(c, events[..q]), i)
    && Run(c, events[..q]).tasks[i].pc.todo != [] && Run(c, events[..q]).tasks[i].pc.todo[0] == x
    && Unsuitable(Run(c, events[..q]).tasks[i], events[q].event.outcome)
  }

  ghost predicate DealtWith(c: Setup, events: seq<Timed>, i: nat, x: Link) {
    WasPushed(Run(c, events).log, i, x) || exists q: nat :: PassedOver(c, events, i, x, q)
  }

  /** The list that task i is going through, as it was fixed. */
  ghost function TheList(c: Setup, events: seq<Timed>, i: nat): seq<Link> {
    var p := FixedAt(c, events, i);
    if p < |events| && PushingAt(Run(c, events[..p + 1]), i) then Run(c, events[..p + 1]).tasks[i].pc.todo else []
  }

  /** What is left of the list is its end, and everything in front was dealt with. */
  ghost predicate InOrder(c: Setup, events: seq<Timed>, i: nat) {
    var s := Run(c, events);
    PushingAt(s, i) ==>
      var list, todo := TheList(c, events, i), s.tasks[i].pc.todo;
      && |todo| <= |list| && todo == list[|list| - |todo|..] && FrontDealtWith(c, events, i, list, |list| - |todo|)
  }

  /** The first n pages of the list were dealt with. */
  ghost predicate FrontDealtWith(c: Setup, events: seq<Timed>, i: nat, list: seq<Link>, n: nat)
    requires n <= |list|
  {
    forall j :: 0 <= j < n ==> DealtWith(c, events, i, list[j])
  }

  lemma FrontStays(c: Setup, events: seq<Timed>, last: Timed, i: nat, list: seq<Link>, n: nat)
    requires n <= |list| && FrontDealtWith(c, events, i, list, n)
    ensures FrontDealtWith(c, events + [last], i, list, n)
  {
    hide DealtWith;
    forall j | 0 <= j < n ensures DealtWith(c, events + [last], i, list[j]) {
      DealtWithStays(c, events, last, i, list[j]);
    }
  }

  lemma DealtWithStays(c: Setup, events: seq<Timed>, last: Timed, i: nat, x: Link)
    requires DealtWith(c, events, i, x)
    ensures DealtWith(c, events + [last], i, x)
  {
    var all := events + [last];
    RunSnoc(c, events, last);
    LogGrowth(c, Run(c, events), last.now, last.event);
    hide Run, After, Pushes;
    if WasPushed(Run(c, events).log, i, x) {
      var e :| e in Run(c, events).log && e.plan == i && e.url == x.url;
      assert e in Run(c, all).log;
    } else {
      var q: nat :| PassedOver(c, events, i, x, q);
      assert all[..q] == events[..q] && all[q] == events[q];
      assert PassedOver(c, all, i, x, q);
    }
  }

  /** One step of a task within its loop: the list stays, or its first page is pushed or passed over. */
  lemma TurnStep(c: Setup, s: State, now: real, e: PushScheduling.Event, i: nat)
    requires PushingAt(s, i) && PushingAt(After(c, s, now, e), i)
    ensures var r := After(c, s, now, e);
            var todo := s.tasks[i].pc.todo;
            || r.tasks[i].pc.todo == todo
            || (&& todo != [] && r.tasks[i].pc.todo == todo[1..] && e.Resume? && e.task == i
                && (PushedLast(r.log, i, todo[0]) || Unsuitable(s.tasks[i], e.outcome)))
  {
    hide Limits, Plan, Picks, Depth2K, Parents;
  }

  lemma FixedNow(c: Setup, events: seq<Timed>, last: Timed, i: nat)
    ensures var all := events + [last];
            FixedAt(c, all, i) == if PushingAt(Run(c, all), i) && !PushingAt(Run(c, events), i) then |events|
                                  else FixedAt(c, events, i)
  {
    hide Run, PushingAt;
    assert (events + [last])[..|events|] == events;
  }

  lemma InOrderStart(c: Setup, events: seq<Timed>, last: Timed, i: nat)
    requires !PushingAt(Run(c, events), i)
    ensures InOrder(c, events + [last], i)
  {
    hide Run, FixedAt;
    var all := events + [last];
    assert all[..|events| + 1] == all;
    FixedNow(c, events, last, i);
  }

  lemma SameList(c: Setup, events: seq<Timed>, last: Timed, i: nat)
    requires PushingAt(Run(c, events), i)
    ensures FixedAt(c, events + [last], i) == FixedAt(c, events, i)
    ensures FixedAt(c, events, i) < |events|
    ensures TheList(c, events + [last], i) == TheList(c, events, i)
  {
    hide Run, FixedAt;
    FixedNow(c, events, last, i);
    FixedBefore(c, events, i);
    var p := FixedAt(c, events, i);
    assert (events + [last])[..p + 1] == events[..p + 1];
  }

  lemma {:induction false} FixedBefore(c: Setup, events: seq<Timed>, i: nat)
    requires PushingAt(Run(c, events), i)
    ensures FixedAt(c, events, i) < |events|
  {
    if events != [] && PushingAt(Run(c, events[..|events| - 1]), i) {
      FixedBefore(c, events[..|events| - 1], i);
    }
  }

  lemma InOrderOn(c: Setup, events: seq<Timed>, last: Timed, i: nat)
    requires InOrder(c, events, i) && PushingAt(Run(c, events), i)
    ensures InOrder(c, events + [last], i)
  {
    hide Run, After, TheList, FixedAt, DealtWith, FrontDealtWith;
    var all, s, r := events + [last], Run(c, events), Run(c, events + [last]);
    RunSnoc(c, events, last);
    if PushingAt(r, i) {
      TurnStep(c, s, last.now, last.event, i);
      SameList(c, events, last, i);
      var list, todo := TheList(c, events, i), s.tasks[i].pc.todo;
      var n := |list| - |todo|;
      FrontStays(c, events, last, i, list, n);
      if r.tasks[i].pc.todo != todo {
        assert todo[0] == list[n];
        TurnIsDealtWith(c, events, last, i);
        OneMoreDealtWith(c, all, i, list, n);
      }
    }
  }

  lemma OneMoreDealtWith(c: Setup, events: seq<Timed>, i: nat, list: seq<Link>, n: nat)
    requires n < |list| && FrontDealtWith(c, events, i, list, n) && DealtWith(c, events, i, list[n])
    ensures FrontDealtWith(c, events, i, list, n + 1)
  {
    hide DealtWith;
  }

  lemma TurnIsDealtWith(c: Setup, events: seq<Timed>, last: Timed, i: nat)
    requires PushingAt(Run(c, events), i) && PushingAt(Run(c, events + [last]), i)
    requires var todo := Run(c, events).tasks[i].pc.todo;
             todo != [] && Run(c, events + [last]).tasks[i].pc.todo != todo
    ensures DealtWith(c, events + [last], i, Run(c, events).tasks[i].pc.todo[0])
  {
    var all, s, r := events + [last], Run(c, events), Run(c, events + [last]);
    RunSnoc(c, events, last);
    TurnStep(c, s, last.now, last.event, i);
    hide After, Run;
    assert all[..|events|] == events && all[|events|] == last;
    var x := s.tasks[i].pc.todo[0];
    if PushedLast(r.log, i, x) {
      assert r.log[|r.log| - 1] in r.log;
    } else {
      assert PassedOver(c, all, i, x, |events|);
    }
  }

  lemma {:induction false} AlwaysInOrder(c: Setup, events: seq<Timed>, i: nat)
    ensures InOrder(c, events, i)
  {
    if events != [] {
      var front, last := events[..|events| - 1], events[|events| - 1];
      assert events == front + [last];
      AlwaysInOrder(c, front, i);
      if PushingAt(Run(c, front), i) {
        InOrderOn(c, front, last, i);
      } else {
        InOrderStart(c, front, last, i);
      }
    }
    hide InOrder;
  }

  /** The fate of every page on a list, at either depth, over every run: when a task leaves its push loop, the
      pages at the head of the list were each pushed by it, or could not be fetched, or did not fit the budget
      when their turn came; and pages are left at its end only if the budget is used up or the dropout is due
      at that moment. */
  lemma {:induction false} ListIsGoneThrough(c: Setup, events: seq<Timed>, x: Timed, i: nat)
    requires PushingAt(Run(c, events), i) && !PushingAt(Run(c, events + [x]), i)
    ensures var t, list := Run(c, events).tasks[i], TheList(c, events, i);
            && |t.pc.todo| <= |list| && t.pc.todo == list[|list| - |t.pc.todo|..]
            && (forall j :: 0 <= j < |list| - |t.pc.todo| ==> DealtWith(c, events, i, list[j]))
            && (t.pc.todo == [] || t.spent >= t.limit || DropoutDue(c, events, x.now))
  {
    AlwaysInOrder(c, events, i);
    RunSnoc(c, events, x);
    RecordIsTheHistory(c, events);
    LoopIsLeft(c, Run(c, events), x.now, x.event, i);
    hide Run, After, DealtWith, TheList, Urls, AnsweredUrls;
  }

  lemma LoopIsLeft(c: Setup, s: State, now: real, e: PushScheduling.Event, i: nat)
    requires PushingAt(s, i) && !PushingAt(After(c, s, now, e), i)
    ensures s.tasks[i].pc.todo == [] || s.tasks[i].spent >= s.tasks[i].limit || Offline(s.offlineFrom, now)
  {
    hide Limits, Plan, Picks, Depth2K, Parents;
  }

  // ---------------------------------------------------------------------- a task that is left in peace

  /** Of a list with these frame sizes (None: not to be had), what fits into room, front to back. */
  function Fitting(todo: seq<Link>, wires: seq<Option<nat>>, room: int): seq<(string, nat)>
    requires |todo| == |wires|
  {
    if todo == [] || room <= 0 then []
    else if wires[0].None? || wires[0].value > room then Fitting(todo[1..], wires[1..], room)
    else [(todo[0].url, wires[0].value)] + Fitting(todo[1..], wires[1..], room - wires[0].value)
  }

  function Turn(i: nat, now: real, wire: Option<nat>): seq<Timed> {
    [Timed(now, Resume(i, Next)), Timed(now, Resume(i, Page(wire))), Timed(now, Resume(i, Backlog(0)))]
  }

  /** The answers that task i gets: each page in turn, and an empty backlog. */
  function Answers(i: nat, now: real, todo: seq<Link>, wires: seq<Option<nat>>, room: int): seq<Timed>
    requires |todo| == |wires|
  {
    if todo == [] || room <= 0 then []
    else
      var fits := wires[0].Some? && wires[0].value <= room;
      Turn(i, now, wires[0]) + Answers(i, now, todo[1..], wires[1..], if fits then room - wires[0].value else room)
  }

  function Logged(i: nat, depth: nat, now: real, deadline: Option<real>, what: seq<(string, nat)>): seq<Pushed> {
    if what == [] then []
    else [Pushed(what[0].0, what[0].1, i, depth, now, deadline)] + Logged(i, depth, now, deadline, what[1..])
  }

  /** Task i is at the head of its loop and nothing stands in its way. */
  ghost predicate InPeace(s: State, i: nat, now: real) {
    && i < |s.tasks| && !s.tasks[i].cancelled && s.tasks[i].pc.Pushing? && s.tasks[i].pc.stage.Head?
    && !Offline(s.offlineFrom, now)
  }

  /** One turn: what it does to the task and the log. */
  lemma OneTurn(c: Setup, s: State, i: nat, now: real, wire: Option<nat>)
    requires InPeace(s, i, now) && s.tasks[i].pc.todo != [] && s.tasks[i].spent < s.tasks[i].limit
    ensures var t := s.tasks[i];
            var s1 := After(c, s, now, Resume(i, Next));
            var r := After(c, After(c, s1, now, Resume(i, Page(wire))), now, Resume(i, Backlog(0)));
            var fits := wire.Some? && wire.value <= t.limit - t.spent;
            && InPeace(r, i, now) && r.offlineFrom == s.offlineFrom && r.tasks[i].limit == t.limit
            && r.tasks[i].pc == t.pc.(todo := t.pc.todo[1..])
            && r.tasks[i].spent == t.spent + (if fits then wire.value else 0)
            && r.log == s.log + (if fits then [Pushed(t.pc.todo[0].url, wire.value, i, t.pc.depth, now, s.offlineFrom)]
                                 else [])
  {
    hide Limits, Plan, Picks, Parents, Depth2K;
    assert s.log + [] == s.log;
  }

  lemma RunTurn(c: Setup, events: seq<Timed>, i: nat, now: real, wire: Option<nat>)
    requires InPeace(Run(c, events), i, now) && Run(c, events).tasks[i].pc.todo != []
    requires Run(c, events).tasks[i].spent < Run(c, events).tasks[i].limit
    ensures var s, r := Run(c, events), Run(c, events + Turn(i, now, wire));
            var t := s.tasks[i];
            var fits := wire.Some? && wire.value <= t.limit - t.spent;
            && InPeace(r, i, now) && r.offlineFrom == s.offlineFrom && r.tasks[i].limit == t.limit
            && r.tasks[i].pc == t.pc.(todo := t.pc.todo[1..])
            && r.tasks[i].spent == t.spent + (if fits then wire.value else 0)
            && r.log == s.log + (if fits then [Pushed(t.pc.todo[0].url, wire.value, i, t.pc.depth, now, s.offlineFrom)]
                                 else [])
  {
    OneTurn(c, Run(c, events), i, now, wire);
    hide Run, After, InPeace;
    var a, b, d := Timed(now, Resume(i, Next)), Timed(now, Resume(i, Page(wire))), Timed(now, Resume(i, Backlog(0)));
    RunSnoc(c, events, a);
    RunSnoc(c, events + [a], b);
    RunSnoc(c, events + [a] + [b], d);
    assert events + [a, b, d] == events + [a] + [b] + [d];
  }

  /** r is s after task i has gone through todo: what fits is pushed, and it is at its head again, with the list or
      the budget used up. */
  ghost predicate GoneThrough(s: State, r: State, i: nat, now: real, depth: nat, todo: seq<Link>,
                              wires: seq<Option<nat>>, room: int)
    requires |todo| == |wires|
  {
    && r.log == s.log + Logged(i, depth, now, s.offlineFrom, Fitting(todo, wires, room))
    && InPeace(r, i, now) && (r.tasks[i].pc.todo == [] || r.tasks[i].spent >= r.tasks[i].limit)
  }

  lemma TurnFirst(s: State, s1: State, r: State, i: nat, now: real, depth: nat, todo: seq<Link>,
                  wires: seq<Option<nat>>, room: int)
    requires |todo| == |wires| && todo != [] && room > 0 && s1.offlineFrom == s.offlineFrom
    requires var fits := wires[0].Some? && wires[0].value <= room;
             && s1.log == s.log + (if fits then [Pushed(todo[0].url, wires[0].value, i, depth, now, s.offlineFrom)]
                                   else [])
             && GoneThrough(s1, r, i, now, depth, todo[1..], wires[1..], if fits then room - wires[0].value else room)
    ensures GoneThrough(s, r, i, now, depth, todo, wires, room)
  {
    PushesOneMore(i, depth, now, s.offlineFrom, todo, wires, room, s.log);
    hide Logged, Fitting, InPeace;
  }

  /** From any reachable state: a task that is not replaced, and whose pages are fetched and acknowledged, pushes
      exactly those that fit the rest of its budget when their turn comes, in the order of the list, and goes
      through all of it unless the budget is used up first. */
  lemma {:induction false} AllThatFitsIsPushed(c: Setup, events: seq<Timed>, i: nat, now: real,
                                               wires: seq<Option<nat>>)
    requires InPeace(Run(c, events), i, now) && |wires| == |Run(c, events).tasks[i].pc.todo|
    ensures var s := Run(c, events);
            var t := s.tasks[i];
            var r := Run(c, events + Answers(i, now, t.pc.todo, wires, t.limit - t.spent));
            GoneThrough(s, r, i, now, t.pc.depth, t.pc.todo, wires, t.limit - t.spent)
    decreases |wires|
  {
    hide *;
    var s := Run(c, events);
    PeaceIsPushing(s, i, now);
    var t := s.tasks[i];
    var todo, room := t.pc.todo, t.limit - t.spent;
    if todo == [] || room <= 0 {
      NothingMore(c, events, i, now, wires);
    } else {
      RunTurn(c, events, i, now, wires[0]);
      AnswersOneMore(events, i, now, todo, wires, room);
      var turned := events + Turn(i, now, wires[0]);
      AllThatFitsIsPushed(c, turned, i, now, wires[1..]);
      var left := if wires[0].Some? && wires[0].value <= room then room - wires[0].value else room;
      var r := Run(c, turned + Answers(i, now, todo[1..], wires[1..], left));
      TurnFirst(s, Run(c, turned), r, i, now, t.pc.depth, todo, wires, room);
    }
  }

  lemma PeaceIsPushing(s: State, i: nat, now: real)
    requires InPeace(s, i, now)
    ensures PushingAt(s, i) && i < |s.tasks| && s.tasks[i].pc.Pushing?
  {}

  lemma NothingMore(c: Setup, events: seq<Timed>, i: nat, now: real, wires: seq<Option<nat>>)
    requires InPeace(Run(c, events), i, now) && |wires| == |Run(c, events).tasks[i].pc.todo|
    requires Run(c, events).tasks[i].pc.todo == [] || Run(c, events).tasks[i].spent >= Run(c, events).tasks[i].limit
    ensures var s := Run(c, events);
            var t := s.tasks[i];
            var r := Run(c, events + Answers(i, now, t.pc.todo, wires, t.limit - t.spent));
            GoneThrough(s, r, i, now, t.pc.depth, t.pc.todo, wires, t.limit - t.spent)
  {
    hide Run;
    assert events + [] == events && Run(c, events).log + [] == Run(c, events).log;
  }

  lemma AnswersOneMore(events: seq<Timed>, i: nat, now: real, todo: seq<Link>, wires: seq<Option<nat>>, room: int)
    requires |todo| == |wires| && todo != [] && room > 0
    ensures var left := if wires[0].Some? && wires[0].value <= room then room - wires[0].value else room;
            events + Answers(i, now, todo, wires, room) ==
                (events + Turn(i, now, wires[0])) + Answers(i, now, todo[1..], wires[1..], left)
  {}

  lemma PushesOneMore(i: nat, depth: nat, now: real, deadline: Option<real>, todo: seq<Link>,
                      wires: seq<Option<nat>>, room: int, log: seq<Pushed>)
    requires |todo| == |wires| && todo != [] && room > 0
    ensures var fits := wires[0].Some? && wires[0].value <= room;
            var left := if fits then room - wires[0].value else room;
            var first := if fits then [Pushed(todo[0].url, wires[0].value, i, depth, now, deadline)] else [];
            log + Logged(i, depth, now, deadline, Fitting(todo, wires, room)) ==
                (log + first) + Logged(i, depth, now, deadline, Fitting(todo[1..], wires[1..], left))
  {
    var fits := wires[0].Some? && wires[0].value <= room;
    var left := if fits then room - wires[0].value else room;
    var rest := Fitting(todo[1..], wires[1..], left);
    if fits {
      var all := [(todo[0].url, wires[0].value)] + rest;
      assert all[1..] == rest;
    } else {
      assert log + [] == log;
    }
  }

  /** A page of which nothing can be predicted ends its task, with nothing pushed. */
  lemma NoPredictionNoPlan(c: Setup, events: seq<Timed>, x: Timed)
    requires x.event.Resume? && x.event.outcome == Predicted(None)
    requires x.event.task < |Run(c, events).tasks| && Run(c, events).tasks[x.event.task].pc.Starting?
    requires !Run(c, events).tasks[x.event.task].cancelled
    ensures var s, r := Run(c, events), Run(c, events + [x]);
            r == s.(tasks := s.tasks[x.event.task := s.tasks[x.event.task].(pc := Done)])
  {
    RunSnoc(c, events, x);
    hide Run, Plan, Limits;
  }

  /** All that was acknowledged. */
  function AckedBytes(events: seq<Timed>): nat {
    if events == [] then 0
    else
      var e := events[|events| - 1].event;
      AckedBytes(events[..|events| - 1]) + if e.Acked? then e.bytes else 0
  }

  function PushedBytes(log: seq<Pushed>): nat {
    if log == [] then 0 else PushedBytes(log[..|log| - 1]) + log[|log| - 1].wire
  }

  /** The bytes of pushes that count as unacknowledged are those pushed less those acknowledged: exactly, as long as
      the client never acknowledges more than was pushed, and otherwise not less. */
  lemma {:induction false} UnackedIsPushedNotAcked(c: Setup, events: seq<Timed>)
    ensures var s := Run(c, events);
            && s.unacked + AckedBytes(events) >= PushedBytes(s.log)
            && ((forall n :: 0 <= n <= |events| ==> AckedBytes(events[..n]) <= PushedBytes(Run(c, events[..n]).log)) ==>
                  s.unacked + AckedBytes(events) == PushedBytes(s.log))
  {
    if events != [] {
      var n := |events| - 1;
      var front, x := events[..n], events[n];
      UnackedIsPushedNotAcked(c, front);
      AckedStep(c, Run(c, front), x.now, x.event);
      hide After;
      if forall m :: 0 <= m <= |events| ==> AckedBytes(events[..m]) <= PushedBytes(Run(c, events[..m]).log) {
        assert forall m :: 0 <= m <= n ==> front[..m] == events[..m];
        assert events[..|events|] == events;
        assert AckedBytes(events) <= PushedBytes(Run(c, events).log);
      }
    }
  }

  lemma AckedStep(c: Setup, s: State, now: real, e: PushScheduling.Event)
    ensures var r := After(c, s, now, e);
            && PushedBytes(r.log) >= PushedBytes(s.log)
            && r.unacked == (if e.Acked? then if e.bytes <= s.unacked then s.unacked - e.bytes else 0
                             else s.unacked + (PushedBytes(r.log) - PushedBytes(s.log)))
            && (e.Acked? ==> r.log == s.log)
  {
    hide Moved;
    LogGrowth(c, s, now, e);
    var r := After(c, s, now, e);
    if r.log != s.log {
      assert r.log[..|r.log| - 1] == s.log;
    }
  }

  /** A page that waits for the backlog goes out at the first look that finds nothing unacknowledged, or so little that
      the page still fits under the cap, and the dropout not due; it waits on if there is no room. */
  lemma BacklogDecides(c: Setup, events: seq<Timed>, now: real, i: nat, bytes: nat)
    requires PushingAt(Run(c, events), i) && !Run(c, events).tasks[i].cancelled
    requires Run(c, events).tasks[i].pc.stage.Waiting? && Run(c, events).tasks[i].pc.todo != []
    ensures var s, r := Run(c, events), Run(c, events + [Timed(now, Resume(i, Backlog(bytes)))]);
            var wire, room := s.tasks[i].pc.stage.wire,
                bytes == 0 || bytes + s.tasks[i].pc.stage.wire <= c.policy.maxBacklog;
            && (|r.log| == |s.log| + 1 <==> room && !DropoutDue(c, events, now))
            && (r.log != s.log ==> r.log[..|s.log|] == s.log && r.log[|s.log|].url == s.tasks[i].pc.todo[0].url
                                   && r.log[|s.log|].wire == wire && r.log[|s.log|].at == now)
            && (!room && !DropoutDue(c, events, now) ==> r == s)
  {
    RunSnoc(c, events, Timed(now, Resume(i, Backlog(bytes))));
    RecordIsTheHistory(c, events);
    hide Run, Plan, Limits, Picks, Parents, Depth2K, PushDone;
  }
}
