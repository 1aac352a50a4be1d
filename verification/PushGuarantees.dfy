/** What holds of the prefetch scheduler over every run of views, hints, requests, acknowledgements and task
    steps. */
module PushGuarantees {
  import opened Prelude
  import opened Prefetching
  import opened PushScheduling

  // ------------------------------------------------------------------------------------- budgets

  /** What one plan has put on the network. */
  function Spent(log: seq<Pushed>, plan: nat): nat {
    if log == [] then 0
    else Spent(log[..|log| - 1], plan) + if log[|log| - 1].plan == plan then log[|log| - 1].wire else 0
  }

  lemma SpentSnoc(log: seq<Pushed>, e: Pushed, plan: nat)
    ensures Spent(log + [e], plan) == Spent(log, plan) + if e.plan == plan then e.wire else 0
  {
    assert (log + [e])[..|log|] == log;
  }

  ghost predicate PlansBelow(log: seq<Pushed>, n: nat) {
    forall e <- log :: e.plan < n
  }

  lemma {:induction false} SpentNothing(log: seq<Pushed>, plan: nat)
    requires PlansBelow(log, plan)
    ensures Spent(log, plan) == 0
  {
    if log != [] {
      assert log[|log| - 1] in log;
      SpentNothing(log[..|log| - 1], plan);
    }
  }

  ghost predicate WithinBudget(c: Setup, t: Task) {
    && t.spent <= Max(t.limit, 0)
    && t.limit <= Max(c.policy.maxBudget, 0)
    && (t.pc.Starting? ==> t.spent == 0)
    && (t.pc.Pushing? && t.pc.stage.Waiting? ==> t.spent + t.pc.stage.wire <= t.limit)
  }

  ghost predicate Accounted(c: Setup, tasks: seq<Task>, log: seq<Pushed>) {
    && PlansBelow(log, |tasks|)
    && forall i :: 0 <= i < |tasks| ==> WithinBudget(c, tasks[i]) && Spent(log, i) == tasks[i].spent
  }

  lemma MoveWithinBudget(c: Setup, outlook: Outlook, sent: set<string>, off: bool, t: Task, o: Outcome)
    requires WithinBudget(c, t)
    ensures var r := Moved(c, outlook, sent, off, t, o);
            WithinBudget(c, r) && r.spent == t.spent && r.cancelled == t.cancelled
  {
    hide Plan, Picks, Depth2K, Parents;
  }

  lemma ResumeAccounted(c: Setup, s: State, now: real, i: nat, o: Outcome)
    requires Accounted(c, s.tasks, s.log)
    ensures var r := AfterResume(c, s, now, i, o); Accounted(c, r.tasks, r.log)
  {
    if i < |s.tasks| && !s.tasks[i].cancelled {
      var t := s.tasks[i];
      MoveWithinBudget(c, s.outlook, s.sent, Offline(s.offlineFrom, now), t, o);
      if Pushes(c, s, now, t, o) {
        PushAccounted(c, s, now, i);
      }
      hide Moved, Pushes, WithinBudget, AfterPush;
    }
  }

  lemma PushAccounted(c: Setup, s: State, now: real, i: nat)
    requires Accounted(c, s.tasks, s.log)
    requires i < |s.tasks| && s.tasks[i].pc.Pushing? && s.tasks[i].pc.stage.Waiting? && s.tasks[i].pc.todo != []
    ensures var r := AfterPush(s, now, i); Accounted(c, r.tasks, r.log)
  {
    var r := AfterPush(s, now, i);
    var e := r.log[|s.log|];
    forall j | 0 <= j < |r.tasks| ensures WithinBudget(c, r.tasks[j]) && Spent(r.log, j) == r.tasks[j].spent {
      SpentSnoc(s.log, e, j);
    }
  }

  lemma ViewAccounted(c: Setup, s: State, now: real, url: string)
    requires Accounted(c, s.tasks, s.log)
    ensures var r := AfterView(c, s, now, url); Accounted(c, r.tasks, r.log)
  {
    SpentNothing(s.log, |s.tasks|);
  }

  lemma {:induction false} RunAccounted(c: Setup, events: seq<Timed>)
    ensures Accounted(c, Run(c, events).tasks, Run(c, events).log)
  {
    if events != [] {
      var s, last := Run(c, events[..|events| - 1]), events[|events| - 1];
      RunAccounted(c, events[..|events| - 1]);
      match last.event {
        case View(url) => ViewAccounted(c, s, last.now, url);
        case Hint(_, _, _, _) =>
          if s.current.Some? {
            ViewAccounted(c, Hinted(c, s, last.now, last.event), last.now, s.current.value);
          }
        case Resume(i, o) => ResumeAccounted(c, s, last.now, i, o);
        case _ =>
      }
      hide Accounted, AfterView, AfterResume;
    }
  }

  /** The wire bytes of one plan, both depths together, add up exactly to what it counts as spent, and never
      exceed its budget, which never exceeds the configured maximum. */
  lemma PlanKeepsItsBudget(c: Setup, events: seq<Timed>, plan: nat)
    requires plan < |Run(c, events).tasks|
    ensures var s := Run(c, events);
            && Spent(s.log, plan) == s.tasks[plan].spent
            && Spent(s.log, plan) <= Max(s.tasks[plan].limit, 0)
            && s.tasks[plan].limit <= Max(c.policy.maxBudget, 0)
  {
    RunAccounted(c, events);
  }

  // --------------------------------------------------------------------------------- no repetition

  function Urls(log: seq<Pushed>): set<string> { set e <- log :: e.url }

  ghost predicate DistinctPushes(log: seq<Pushed>) {
    forall i, j :: 0 <= i < j < |log| ==> log[i].url != log[j].url
  }

  ghost predicate DistinctAll(answers: seq<seq<Link>>) {
    forall answer <- answers :: DistinctUrls(answer)
  }

  ghost predicate AllNew(todo: seq<Link>, had: set<string>) {
    DistinctUrls(todo) && forall x <- todo :: x.url !in had
  }

  /** What a task has yet to push was never pushed. */
  ghost predicate NewPc(pc: Pc, pushed: set<string>) {
    && (pc.Pushing? ==> AllNew(pc.todo, pushed) && DistinctAll(pc.rest))
    && (pc.Children? ==> DistinctAll(pc.rest))
  }

  ghost predicate NoRepeats(tasks: seq<Task>, log: seq<Pushed>, sent: set<string>) {
    && DistinctPushes(log)
    && Urls(log) <= sent
    && forall i :: 0 <= i < |tasks| && !tasks[i].cancelled ==> NewPc(tasks[i].pc, Urls(log))
  }

  lemma {:induction false} UnsentIsNew(links: seq<Link>, sent: set<string>)
    requires DistinctUrls(links)
    ensures AllNew(Unsent(links, sent), sent) && forall x <- Unsent(links, sent) :: x in links
  {
    if links != [] {
      var front, x := links[..|links| - 1], links[|links| - 1];
      UnsentIsNew(front, sent);
      assert forall y <- front :: y.url != x.url;
    }
  }

  lemma PicksAreNew(answer: seq<Link>, sent: set<string>, k: nat)
    requires DistinctUrls(answer)
    ensures AllNew(Picks(answer, sent, k), sent)
  {
    RankedDistinct(answer);
    UnsentIsNew(Ranked(answer), sent);
    hide Unsent, Ranked;
  }

  lemma PlanIsNew(c: PolicyConfig, adaptive: bool, probs: seq<Link>, o: Outlook, sent: set<string>)
    requires DistinctUrls(probs)
    ensures AllNew(Plan(c, adaptive, probs, o, map[], sent), sent)
  {
    PlanIsMaximal(c, adaptive, probs, o, map[], sent);
    hide Plan, Limits, Descending, Room;
  }

  lemma RestIsNew(todo: seq<Link>, had: set<string>)
    requires AllNew(todo, had) && todo != []
    ensures AllNew(todo[1..], had + {todo[0].url})
  {}

  lemma AllNewWeakens(todo: seq<Link>, had: set<string>, less: set<string>)
    requires AllNew(todo, had) && less <= had
    ensures AllNew(todo, less)
  {}

  lemma MoveIsNew(c: Setup, outlook: Outlook, sent: set<string>, off: bool, t: Task, o: Outcome, pushed: set<string>)
    requires NewPc(t.pc, pushed) && pushed <= sent && ValidOutcome(o)
    ensures NewPc(Moved(c, outlook, sent, off, t, o).pc, pushed)
  {
    if t.pc.Starting? && o.Predicted? && o.probs.Some? {
      PlanIsNew(c.policy, c.adaptive, o.probs.value, outlook, sent);
      AllNewWeakens(Plan(c.policy, c.adaptive, o.probs.value, outlook, map[], sent), sent, pushed);
    } else if t.pc.Children? && t.pc.rest != [] {
      assert DistinctAll(t.pc.rest[1..]);
      PicksAreNew(t.pc.rest[0], sent, t.pc.k);
      AllNewWeakens(Picks(t.pc.rest[0], sent, t.pc.k), sent, pushed);
    } else if t.pc.Pushing? && t.pc.todo != [] {
      RestIsNew(t.pc.todo, pushed);
      AllNewWeakens(t.pc.todo[1..], pushed + {t.pc.todo[0].url}, pushed);
    }
    hide Plan, Picks, Limits, Depth2K, Parents, AllNew, DistinctUrls;
  }

  lemma PushIsNew(s: State, now: real, i: nat)
    requires OneLive(s.tasks, s.prefetch) && NoRepeats(s.tasks, s.log, s.sent)
    requires i < |s.tasks| && !s.tasks[i].cancelled
    requires s.tasks[i].pc.Pushing? && s.tasks[i].pc.stage.Waiting? && s.tasks[i].pc.todo != []
    ensures var r := AfterPush(s, now, i); NoRepeats(r.tasks, r.log, r.sent)
  {
    var r := AfterPush(s, now, i);
    var todo := s.tasks[i].pc.todo;
    RestIsNew(todo, Urls(s.log));
    assert todo[0] in todo;
    assert forall e <- s.log :: e.url in Urls(s.log);
    assert Urls(r.log) == Urls(s.log) + {todo[0].url} by {
      assert r.log[|s.log|] in r.log;
      assert forall e <- s.log :: e in r.log;
    }
    assert DistinctPushes(r.log);
    hide Urls, DistinctPushes, AllNew;
  }

  lemma ResumeNoRepeats(c: Setup, s: State, now: real, i: nat, o: Outcome)
    requires OneLive(s.tasks, s.prefetch) && NoRepeats(s.tasks, s.log, s.sent) && ValidOutcome(o)
    ensures var r := AfterResume(c, s, now, i, o); NoRepeats(r.tasks, r.log, r.sent)
  {
    if i < |s.tasks| && !s.tasks[i].cancelled {
      var t := s.tasks[i];
      MoveIsNew(c, s.outlook, s.sent, Offline(s.offlineFrom, now), t, o, Urls(s.log));
      if Pushes(c, s, now, t, o) {
        PushIsNew(s, now, i);
      }
      hide Moved, Pushes, NewPc, AfterPush, DistinctPushes, Urls, OneLive;
    }
  }

  lemma ViewNoRepeats(c: Setup, s: State, now: real, url: string)
    requires NoRepeats(s.tasks, s.log, s.sent)
    ensures var r := AfterView(c, s, now, url); NoRepeats(r.tasks, r.log, r.sent)
  {
    hide DistinctPushes, Urls;
  }

  lemma {:induction false} RunNoRepeats(c: Setup, events: seq<Timed>)
    requires ValidRun(events)
    ensures var s := Run(c, events); NoRepeats(s.tasks, s.log, s.sent)
  {
    if events != [] {
      var s, last := Run(c, events[..|events| - 1]), events[|events| - 1];
      RunNoRepeats(c, events[..|events| - 1]);
      RunKeepsOneLive(c, events[..|events| - 1]);
      assert last in events;
      match last.event {
        case View(url) => ViewNoRepeats(c, s, last.now, url);
        case Hint(_, _, _, _) =>
          if s.current.Some? {
            ViewNoRepeats(c, Hinted(c, s, last.now, last.event), last.now, s.current.value);
          }
        case Resume(i, o) => ResumeNoRepeats(c, s, last.now, i, o);
        case Answered(url) => MoreSent(s.tasks, s.log, s.sent, url);
        case _ =>
      }
      hide NoRepeats, AfterView, AfterResume, OneLive, ValidOutcome;
    }
  }

  lemma MoreSent(tasks: seq<Task>, log: seq<Pushed>, sent: set<string>, url: string)
    requires NoRepeats(tasks, log, sent)
    ensures NoRepeats(tasks, log, sent + {url})
  {}

  /** In a session no page is pushed twice, across both depths, all pages viewed and all re-plans; and
      whatever was pushed counts as something the client has. */
  lemma NeverPushedTwice(c: Setup, events: seq<Timed>, i: nat, j: nat)
    requires ValidRun(events) && i < j < |Run(c, events).log|
    ensures Run(c, events).log[i].url != Run(c, events).log[j].url
    ensures Run(c, events).log[i].url in Run(c, events).sent
  {
    RunNoRepeats(c, events);
    assert Run(c, events).log[i].url in Urls(Run(c, events).log);
  }

  // ----------------------------------------------------------------------------------- the deadline

  lemma LogGrowth(c: Setup, s: State, now: real, e: Event)
    ensures var r := After(c, s, now, e);
            || r.log == s.log
            || (&& e.Resume? && e.task < |s.tasks| && Pushes(c, s, now, s.tasks[e.task], e.outcome)
                && !s.tasks[e.task].cancelled
                && r.log == s.log + [Pushed(s.tasks[e.task].pc.todo[0].url, s.tasks[e.task].pc.stage.wire, e.task,
                                            s.tasks[e.task].pc.depth, now, s.offlineFrom)]
                && r.unacked == s.unacked + s.tasks[e.task].pc.stage.wire)
  {
    hide Moved;
  }

  lemma RunNothing(c: Setup)
    ensures Run(c, []) == Initial()
  {}

  lemma RunSnoc(c: Setup, events: seq<Timed>, x: Timed)
    ensures Run(c, events + [x]) == After(c, Run(c, events), x.now, x.event)
  {
    assert (events + [x])[..|events|] == events;
  }

  /** Every push happens with no deadline set, or strictly before it. */
  lemma {:induction false} PushesBeforeTheDropout(c: Setup, events: seq<Timed>)
    ensures forall e <- Run(c, events).log :: e.deadline.Some? ==> e.at < e.deadline.value
  {
    if events != [] {
      PushesBeforeTheDropout(c, events[..|events| - 1]);
      LogGrowth(c, Run(c, events[..|events| - 1]), events[|events| - 1].now, events[|events| - 1].event);
      hide After;
    }
  }

  /** From the deadline on nothing is pushed and no task is started or replaced, whatever is viewed,
      predicted or acknowledged, until another hint arrives. */
  lemma {:induction false} QuietUntilTheNextHint(c: Setup, events: seq<Timed>, more: seq<Timed>, from: real)
    requires Offline(Run(c, events).offlineFrom, from)
    requires forall x <- more :: x.now >= from && !x.event.Hint?
    ensures var s, r := Run(c, events), Run(c, events + more);
            r.log == s.log && r.offlineFrom == s.offlineFrom && r.prefetch == s.prefetch && |r.tasks| == |s.tasks|
  {
    if more == [] {
      assert events + more == events;
    } else {
      var front, last := more[..|more| - 1], more[|more| - 1];
      QuietUntilTheNextHint(c, events, front, from);
      assert (events + more)[..|events + more| - 1] == events + front;
      var s := Run(c, events + front);
      assert last in more;
      LogGrowth(c, s, last.now, last.event);
      QuietStep(c, s, last.now, last.event);
      hide After, Pushes;
    }
  }

  lemma QuietStep(c: Setup, s: State, now: real, e: Event)
    requires !e.Hint? && Offline(s.offlineFrom, now)
    ensures var r := After(c, s, now, e);
            r.log == s.log && r.offlineFrom == s.offlineFrom && r.prefetch == s.prefetch && |r.tasks| == |s.tasks|
  {
    hide Moved;
  }

  /** A warned dropout, seen from the outside: once a hint announces a dropout in eta seconds, whatever is
      pushed before the next hint is pushed more than the margin ahead of it. */
  lemma {:induction false} StopsBeforeTheWarnedDropout(c: Setup, before: seq<Timed>, hint: Timed, more: seq<Timed>)
    requires hint.event.Hint? && hint.event.active && hint.event.eta.Some?
    requires forall x <- more :: !x.event.Hint?
    ensures var s, r := Run(c, before), Run(c, before + [hint] + more);
            var ahead := hint.event.eta.value - c.policy.pushStopMargin;
            var due := hint.now + if ahead > 0.0 then ahead else 0.0;
            && r.offlineFrom == Some(due) && s.log <= r.log
            && forall i :: |s.log| <= i < |r.log| ==> r.log[i].at < due
  {
    var all := before + [hint];
    if more == [] {
      assert all + more == all;
      RunSnoc(c, before, hint);
      LogGrowth(c, Run(c, before), hint.now, hint.event);
      HintDeadline(c, Run(c, before), hint.now, hint.event);
    } else {
      var front, last := more[..|more| - 1], more[|more| - 1];
      StopsBeforeTheWarnedDropout(c, before, hint, front);
      assert all + more == (all + front) + [last];
      assert last in more;
      RunSnoc(c, all + front, last);
      LogGrowth(c, Run(c, all + front), last.now, last.event);
      DeadlineStays(c, Run(c, all + front), last.now, last.event);
    }
    hide After, Run;
  }

  lemma HintDeadline(c: Setup, s: State, now: real, e: Event)
    requires e.Hint? && e.active && e.eta.Some?
    ensures var ahead := e.eta.value - c.policy.pushStopMargin;
            After(c, s, now, e).offlineFrom == Some(now + if ahead > 0.0 then ahead else 0.0)
    ensures After(c, s, now, e).log == s.log
  {}

  lemma DeadlineStays(c: Setup, s: State, now: real, e: Event)
    requires !e.Hint?
    ensures After(c, s, now, e).offlineFrom == s.offlineFrom
  {
    hide Moved;
  }

  // -------------------------------------------------------------------------------- the second click

  /** A task goes on to depth 2 only while an outage longer than a page view is predicted and the policy
      adapts to it. */
  lemma SecondClickOnlyInLongOutages(c: Setup, outlook: Outlook, sent: set<string>, off: bool, t: Task, o: Outcome)
    requires !t.pc.Expanding? && Moved(c, outlook, sent, off, t, o).pc.Expanding?
    ensures c.adaptive && outlook.imminent && outlook.outage >= c.policy.depth2MinOutage
    ensures t.pc.Pushing? && t.pc.depth == 1 && (t.pc.todo == [] || t.spent >= t.limit || off)
  {
    hide Plan, Limits, Picks, Parents;
  }

  /** The pages it expands are those of the first plan's predictions that fit the limits now in force, with
      nothing left out that would still fit, and whether or not the client has them. */
  lemma ExpandsWhatIsLikely(c: Setup, outlook: Outlook, sent: set<string>, off: bool, t: Task, o: Outcome)
    requires DistinctUrls(t.probs) && !t.pc.Expanding? && Moved(c, outlook, sent, off, t, o).pc.Expanding?
    ensures var parents := Moved(c, outlook, sent, off, t, o).pc.parents;
            var a := TheAsk(c.policy, c.adaptive, outlook, map[], {});
            && (parents != [] ==> Total(c.policy, map[], parents) <= a.budget)
            && Descending(parents) && DistinctUrls(parents)
            && (forall x <- parents :: x in t.probs && x.prob >= a.threshold)
            && (forall x <- t.probs :: x.prob >= a.threshold && x !in parents ==> !Room(c.policy, a, parents, x))
  {
    ParentsFixed(c, outlook, sent, off, t, o);
    hide Moved;
    PlanIsMaximal(c.policy, c.adaptive, t.probs, outlook, map[], {});
    hide Plan, Limits, Room, Total, Descending, DistinctUrls;
  }

  lemma ParentsFixed(c: Setup, outlook: Outlook, sent: set<string>, off: bool, t: Task, o: Outcome)
    requires !t.pc.Expanding? && Moved(c, outlook, sent, off, t, o).pc.Expanding?
    ensures Moved(c, outlook, sent, off, t, o).pc.parents == Parents(c, outlook, t.probs)
  {
    hide Plan, Limits, Picks, Parents;
  }

  lemma {:induction false} UnsentDescending(links: seq<Link>, sent: set<string>)
    requires Descending(links)
    ensures Descending(Unsent(links, sent))
    ensures forall x :: x in Unsent(links, sent) <==> x in links && x.url !in sent
  {
    if links != [] {
      var front, x := links[..|links| - 1], links[|links| - 1];
      UnsentDescending(front, sent);
      assert links == front + [x];
      LastIsLeast(links);
      hide Descending;
      AppendLeast(Unsent(front, sent), front, x);
    }
  }

  lemma LastIsLeast(links: seq<Link>)
    requires Descending(links) && links != []
    ensures forall y <- links[..|links| - 1] :: y.prob >= links[|links| - 1].prob
  {}

  lemma AppendLeast(some: seq<Link>, front: seq<Link>, x: Link)
    requires Descending(some) && (forall y <- some :: y in front) && forall y <- front :: y.prob >= x.prob
    ensures Descending(some + [x])
  {
    forall i | 0 <= i < |some| ensures some[i].prob >= x.prob {
      assert some[i] in front;
    }
  }

  /** What is pushed of a child page: at most k links, none of which the client has, and no link left out is
      more likely than one picked; fewer than k only if there are no more. */
  lemma PicksAreTheLikeliest(answer: seq<Link>, sent: set<string>, k: nat)
    requires DistinctUrls(answer)
    ensures var picks := Picks(answer, sent, k);
            && |picks| <= k && (forall x <- picks :: x in answer && x.url !in sent)
            && (forall x <- answer :: x.url !in sent && x !in picks ==>
                  |picks| == k && forall y <- picks :: y.prob >= x.prob)
  {
    RankedDistinct(answer);
    RankedIsStableSort(answer, 0.0);
    UnsentDescending(Ranked(answer), sent);
    hide Unsent, Ranked;
    var links, picks := Unsent(Ranked(answer), sent), Picks(answer, sent, k);
    forall x <- answer | x.url !in sent && x !in picks ensures |picks| == k && forall y <- picks :: y.prob >= x.prob {
      assert x in links;
      LeftBehind(links, picks, x);
    }
  }

  lemma LeftBehind(links: seq<Link>, picks: seq<Link>, x: Link)
    requires Descending(links) && picks <= links && x in links && x !in picks
    ensures |picks| < |links| && forall y <- picks :: y.prob >= x.prob
  {
    var others := links[|picks|..];
    assert links == picks + others;
    assert x in others;
    var i :| 0 <= i < |others| && others[i] == x;
    assert links[|picks| + i] == x;
    forall y <- picks ensures y.prob >= x.prob {
      var j :| 0 <= j < |picks| && picks[j] == y;
      assert links[j] == y;
    }
  }

  /** A view starts a task, and cancels the previous one, exactly when pages are predicted and the client
      is not about to be unreachable; a view that comes too late leaves the old task running. */
  lemma ViewRestartsUnlessOffline(c: Setup, s: State, now: real, url: string)
    requires OneLive(s.tasks, s.prefetch) && s.prefetch.Some?
    ensures var r := AfterView(c, s, now, url);
            if c.predicting && !Offline(s.offlineFrom, now) then
              r.prefetch == Some(|s.tasks|) && r.tasks[s.prefetch.value].cancelled && r.tasks[|s.tasks|].pc.Starting?
            else r.tasks == s.tasks && r.prefetch == s.prefetch
  {}

  /** Without a predictor the server is a plain proxy. */
  lemma {:induction false} NoPredictorNoPush(c: Setup, events: seq<Timed>)
    requires !c.predicting
    ensures Run(c, events).tasks == [] && Run(c, events).log == []
  {
    if events != [] {
      NoPredictorNoPush(c, events[..|events| - 1]);
    }
  }

  // ------------------------------------------------------------------------------------ the backlog

  /** The tunnel reports at least what the client has not acknowledged of the pushes; responses to the
      reader's own requests may add to it. */
  ghost predicate HonestBacklog(c: Setup, events: seq<Timed>) {
    forall n :: 0 <= n < |events| && events[n].event.Resume? && events[n].event.outcome.Backlog? ==>
      events[n].event.outcome.bytes >= Run(c, events[..n]).unacked
  }

  /** Unacknowledged push bytes never exceed the cap, except that they may all belong to the one frame
      pushed last. */
  lemma {:induction false} BacklogIsBounded(c: Setup, events: seq<Timed>)
    requires HonestBacklog(c, events)
    ensures var s := Run(c, events);
            s.unacked <= c.policy.maxBacklog || (s.log != [] && s.unacked <= s.log[|s.log| - 1].wire)
  {
    if events != [] {
      var n := |events| - 1;
      assert HonestBacklog(c, events[..n]) by {
        assert forall k :: 0 <= k < n ==> events[..n][k] == events[k] && events[..n][..k] == events[..k];
      }
      BacklogIsBounded(c, events[..n]);
      var s, last := Run(c, events[..n]), events[n];
      LogGrowth(c, s, last.now, last.event);
      UnackedStep(c, s, last.now, last.event);
      hide After, AfterResume;
    }
  }

  lemma UnackedStep(c: Setup, s: State, now: real, e: Event)
    ensures var r := After(c, s, now, e); r.log == s.log ==> r.unacked <= s.unacked
  {
    hide Moved;
    if e.Resume? && e.task < |s.tasks| && Pushes(c, s, now, s.tasks[e.task], e.outcome) {
      assert s.tasks[e.task].cancelled || After(c, s, now, e).log != s.log;
    }
  }

  /** The bound in terms of the largest frame. */
  lemma BacklogWithinLargestFrame(c: Setup, events: seq<Timed>, largest: nat)
    requires HonestBacklog(c, events)
    requires forall e <- Run(c, events).log :: e.wire <= largest
    ensures Run(c, events).unacked <= Max(c.policy.maxBacklog, largest)
  {
    BacklogIsBounded(c, events);
  }

  /** A push takes the backlog over the cap exactly when its frame alone is larger than the cap, which
      needs an empty backlog. */
  lemma OverTheCapExactlyWhen(c: Setup, s: State, now: real, i: nat, o: Outcome)
    requires i < |s.tasks| && !s.tasks[i].cancelled && Pushes(c, s, now, s.tasks[i], o) && o.bytes >= s.unacked
    ensures AfterResume(c, s, now, i, o).unacked > c.policy.maxBacklog <==>
        s.tasks[i].pc.stage.wire > c.policy.maxBacklog
    ensures s.tasks[i].pc.stage.wire > c.policy.maxBacklog ==> o.bytes == 0
  {}
}
