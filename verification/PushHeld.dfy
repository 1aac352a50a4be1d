/** When a page is pushed that the client already has. */
module PushHeld {
  import opened Prelude
  import opened Prefetching
  import opened PushScheduling
  import opened PushGuarantees

  predicate PushingAt(s: State, i: nat) { i < |s.tasks| && s.tasks[i].pc.Pushing? }

  /** The step that gave task i the list it is going through: its plan, or its picks of a child page. */
  ghost function FixedAt(c: Setup, events: seq<Timed>, i: nat): nat {
    if events == [] then 0
    else
      var n := |events| - 1;
      if PushingAt(Run(c, events), i) && !PushingAt(Run(c, events[..n]), i) then n else FixedAt(c, events[..n], i)
  }

  /** The reader's own request for the page was answered at step p or later. */
  ghost predicate AnsweredSince(events: seq<Timed>, p: nat, url: string) {
    exists q :: p <= q < |events| && events[q].event == Answered(url)
  }

  /** At step p the client lacked the page, which was put on task i's list; since then it got it only if the
      reader asked for it. */
  ghost predicate SentOnlyIfAnswered(c: Setup, events: seq<Timed>, i: nat, p: nat, x: Link) {
    && p < |events|
    && events[p].event.Resume? && events[p].event.task == i
    && PushingAt(Run(c, events[..p + 1]), i) && x in Run(c, events[..p + 1]).tasks[i].pc.todo
    && x.url !in Run(c, events[..p]).sent
    && (x.url in Run(c, events).sent <==> AnsweredSince(events, p, x.url))
  }

  ghost predicate Timely(c: Setup, events: seq<Timed>, i: nat) {
    var s := Run(c, events);
    PushingAt(s, i) && !s.tasks[i].cancelled ==>
      forall x <- s.tasks[i].pc.todo :: SentOnlyIfAnswered(c, events, i, FixedAt(c, events, i), x)
  }

  lemma AnsweredSinceSnoc(events: seq<Timed>, last: Timed, p: nat, url: string)
    requires p < |events|
    ensures AnsweredSince(events + [last], p, url) <==> AnsweredSince(events, p, url) || last.event == Answered(url)
  {
    var all := events + [last];
    assert all[|events|] == last;
    assert forall q :: 0 <= q < |events| ==> all[q] == events[q];
  }

  /** A task begins a list: no page on it has been sent. */
  lemma ListIsFixed(c: Setup, s: State, now: real, e: Event, i: nat)
    requires (e.Resume? ==> ValidOutcome(e.outcome)) && NoRepeats(s.tasks, s.log, s.sent)
    requires !PushingAt(s, i) && PushingAt(After(c, s, now, e), i) && !After(c, s, now, e).tasks[i].cancelled
    ensures var r := After(c, s, now, e);
            && e.Resume? && e.task == i && r.sent == s.sent
            && forall x <- r.tasks[i].pc.todo :: x.url !in s.sent
  {
    hide Limits, Plan, Picks, Depth2K, Parents, NoRepeats;
    if e.Resume? && e.task < |s.tasks| && !s.tasks[e.task].cancelled {
      var t := s.tasks[e.task];
      if t.pc.Starting? && e.outcome.Predicted? && e.outcome.probs.Some? {
        PlanIsNew(c.policy, c.adaptive, e.outcome.probs.value, s.outlook, s.sent);
      } else if t.pc.Children? && t.pc.rest != [] {
        ChildrenDistinct(s, e.task);
        PicksAreNew(t.pc.rest[0], s.sent, t.pc.k);
      }
    }
  }

  lemma ChildrenDistinct(s: State, i: nat)
    requires NoRepeats(s.tasks, s.log, s.sent) && i < |s.tasks| && !s.tasks[i].cancelled
    requires s.tasks[i].pc.Children? && s.tasks[i].pc.rest != []
    ensures DistinctUrls(s.tasks[i].pc.rest[0])
  {
    assert NewPc(s.tasks[i].pc, Urls(s.log));
  }

  /** A task goes on with a list: what is left of it was on it, and only the page just pushed joined the
      pages sent on the task's account. */
  lemma ListGoesOn(c: Setup, s: State, now: real, e: Event, i: nat)
    requires OneLive(s.tasks, s.prefetch) && PushingAt(s, i)
    requires PushingAt(After(c, s, now, e), i) && !After(c, s, now, e).tasks[i].cancelled
    ensures var r := After(c, s, now, e);
            var todo := s.tasks[i].pc.todo;
            && !s.tasks[i].cancelled
            && (r.tasks[i].pc.todo == todo || (todo != [] && r.tasks[i].pc.todo == todo[1..]))
            && (r.sent == s.sent || (e.Answered? && r.sent == s.sent + {e.url})
                || (todo != [] && r.tasks[i].pc.todo == todo[1..] && r.sent == s.sent + {todo[0].url}))
            && (e.Answered? ==> r.sent == s.sent + {e.url} && r.tasks[i].pc.todo == todo)
  {
    hide Limits, Plan, Picks, Depth2K, Parents;
  }

  lemma TimelyStart(c: Setup, events: seq<Timed>, last: Timed, i: nat)
    requires ValidRun(events + [last]) && NoRepeats(Run(c, events).tasks, Run(c, events).log, Run(c, events).sent)
    requires !PushingAt(Run(c, events), i)
    ensures Timely(c, events + [last], i)
  {
    var all, s, r := events + [last], Run(c, events), Run(c, events + [last]);
    RunSnoc(c, events, last);
    assert all[|events|] == last && last in all;
    assert all[..|events|] == events && all[..|events| + 1] == all;
    if PushingAt(r, i) && !r.tasks[i].cancelled {
      assert last.event.Resume? ==> ValidOutcome(last.event.outcome);
      ListIsFixed(c, s, last.now, last.event, i);
      hide After, Run, NoRepeats, ValidRun;
      forall x <- r.tasks[i].pc.todo ensures SentOnlyIfAnswered(c, all, i, |events|, x) {
        assert !AnsweredSince(all, |events|, x.url);
      }
    }
  }

  lemma TimelyOn(c: Setup, events: seq<Timed>, last: Timed, i: nat)
    requires Timely(c, events, i) && PushingAt(Run(c, events), i)
    requires OneLive(Run(c, events).tasks, Run(c, events).prefetch)
    requires NoRepeats(Run(c, events).tasks, Run(c, events).log, Run(c, events).sent)
    ensures Timely(c, events + [last], i)
  {
    var all, s, r := events + [last], Run(c, events), Run(c, events + [last]);
    RunSnoc(c, events, last);
    assert all[..|events|] == events;
    if PushingAt(r, i) && !r.tasks[i].cancelled {
      ListGoesOn(c, s, last.now, last.event, i);
      var p, todo := FixedAt(c, events, i), s.tasks[i].pc.todo;
      assert FixedAt(c, all, i) == p;
      TodoDistinct(s, i);
      hide After, Run, NoRepeats, OneLive, FixedAt;
      forall x <- r.tasks[i].pc.todo ensures SentOnlyIfAnswered(c, all, i, p, x) {
        assert x in todo;
        assert SentOnlyIfAnswered(c, events, i, p, x);
        assert all[..p] == events[..p] && all[..p + 1] == events[..p + 1];
        AnsweredSinceSnoc(events, last, p, x.url);
        if r.tasks[i].pc.todo != todo {
          FirstIsNotAgain(todo, x);
        }
        hide AnsweredSince;
      }
    }
  }

  lemma TodoDistinct(s: State, i: nat)
    requires NoRepeats(s.tasks, s.log, s.sent) && PushingAt(s, i) && !s.tasks[i].cancelled
    ensures DistinctUrls(s.tasks[i].pc.todo)
  {
    assert NewPc(s.tasks[i].pc, Urls(s.log));
  }

  lemma FirstIsNotAgain(todo: seq<Link>, x: Link)
    requires DistinctUrls(todo) && todo != [] && x in todo[1..]
    ensures x.url != todo[0].url
  {
    var k :| 0 <= k < |todo[1..]| && todo[1..][k] == x;
    assert todo[k + 1] == x;
  }

  lemma {:induction false} AlwaysTimely(c: Setup, events: seq<Timed>, i: nat)
    requires ValidRun(events)
    ensures Timely(c, events, i)
  {
    if events != [] {
      var front, last := events[..|events| - 1], events[|events| - 1];
      assert events == front + [last];
      assert ValidRun(front) by {
        assert forall x <- front :: x in events;
      }
      AlwaysTimely(c, front, i);
      RunKeepsOneLive(c, front);
      RunNoRepeats(c, front);
      if PushingAt(Run(c, front), i) {
        TimelyOn(c, front, last, i);
      } else {
        TimelyStart(c, front, last, i);
      }
    }
    hide Timely, NoRepeats, OneLive;
  }

  /** Of every push, at either depth: when the list it stands on was fixed, the client lacked the page; and it
      has the page at the moment it is pushed if and only if the reader's own request for it was answered in
      between. */
  lemma {:induction false} HeldWhenPushedExactlyWhen(c: Setup, events: seq<Timed>, last: Timed)
    requires ValidRun(events + [last]) && Run(c, events + [last]).log != Run(c, events).log
    ensures |Run(c, events + [last]).log| == |Run(c, events).log| + 1
    ensures var e := Run(c, events + [last]).log[|Run(c, events).log|];
            var p := FixedAt(c, events, e.plan);
            && p < |events| && events[p].event.Resume? && events[p].event.task == e.plan
            && e.url !in Run(c, events[..p]).sent
            && (e.url in Run(c, events).sent <==> AnsweredSince(events, p, e.url))
  {
    var s := Run(c, events);
    RunSnoc(c, events, last);
    LogGrowth(c, s, last.now, last.event);
    assert ValidRun(events) by {
      assert forall x <- events :: x in events + [last];
    }
    var i := last.event.task;
    AlwaysTimely(c, events, i);
    assert s.tasks[i].pc.todo[0] in s.tasks[i].pc.todo;
    assert SentOnlyIfAnswered(c, events, i, FixedAt(c, events, i), s.tasks[i].pc.todo[0]);
    hide After, Run, FixedAt, AnsweredSince;
  }

  // -------------------------------------------------------------------------------- a run where it does

  /** A session with one running task and no deadline. */
  function OneTask(page: string, sent: set<string>, t: Task, log: seq<Pushed>, unacked: nat): State {
    State(Some(page), sent, Outlook(false, 0.0, false), None, Some(0), [t], log, unacked)
  }

  lemma SingleLinkPlan(c: PolicyConfig, adaptive: bool, link: Link)
    requires c.threshold <= link.prob && c.defaultSize <= c.budget <= c.maxBudget
    ensures Limits(c, adaptive, Outlook(false, 0.0, false)) == (c.threshold, c.budget)
    ensures Plan(c, adaptive, [link], Outlook(false, 0.0, false), map[], {}) == [link]
  {
    var a := TheAsk(c, adaptive, Outlook(false, 0.0, false), map[], {});
    assert Ranked([link]) == [link] by {
      assert [link][..0] == [];
    }
    assert [link][..1] == [link];
    TakenNone(c, a, [link]);
    TakenNext(c, a, [link], 0);
    hide Ranked, Taken;
    assert Room(c, a, [], link);
  }

  lemma StartStep(c: Setup, page: string)
    requires c.predicting
    ensures After(c, Initial(), 0.0, View(page)) == OneTask(page, {}, NEW_TASK, [], 0)
  {}

  lemma PlanStep(c: Setup, page: string, link: Link)
    requires c.policy.threshold <= link.prob && c.policy.defaultSize <= c.policy.budget <= c.policy.maxBudget
    ensures After(c, OneTask(page, {}, NEW_TASK, [], 0), 0.0, Resume(0, Predicted(Some([link])))) ==
            OneTask(page, {}, Task(false, c.policy.budget, 0, [link], Pushing(1, [link], Head, 0, [])), [], 0)
  {
    PlanMoves(c, link);
    hide Moved, Plan, Limits;
  }

  lemma PlanMoves(c: Setup, link: Link)
    requires c.policy.threshold <= link.prob && c.policy.defaultSize <= c.policy.budget <= c.policy.maxBudget
    ensures Moved(c, Outlook(false, 0.0, false), {}, false, NEW_TASK, Predicted(Some([link]))) ==
            Task(false, c.policy.budget, 0, [link], Pushing(1, [link], Head, 0, []))
  {
    hide Plan, Limits, Picks, Depth2K;
    SingleLinkPlan(c.policy, c.adaptive, link);
  }

  lemma FetchSteps(c: Setup, page: string, link: Link, wire: nat, limit: nat)
    requires 0 < limit && wire <= limit
    ensures var s := OneTask(page, {}, Task(false, limit, 0, [link], Pushing(1, [link], Head, 0, [])), [], 0);
            After(c, After(c, s, 0.0, Resume(0, Next)), 0.0, Resume(0, Page(Some(wire)))) ==
            OneTask(page, {}, Task(false, limit, 0, [link], Pushing(1, [link], Waiting(wire), 0, [])), [], 0)
  {
    hide Plan, Limits, Picks;
  }

  lemma LastSteps(c: Setup, page: string, link: Link, wire: nat, limit: nat)
    ensures var s := OneTask(page, {}, Task(false, limit, 0, [link], Pushing(1, [link], Waiting(wire), 0, [])), [], 0);
            var r := After(c, s, 0.0, Answered(link.url));
            link.url in r.sent && r.log == []
            && After(c, r, 0.0, Resume(0, Backlog(0))).log == [Pushed(link.url, wire, 0, 1, 0.0, None)]
  {
    hide Moved;
  }

  /** The set of pages the client has is looked at when the plan is made, not when a page goes out: one that
      the reader requests in between is pushed all the same. */
  lemma RequestedMeanwhileIsStillPushed(c: Setup, page: string, link: Link, wire: nat)
    requires c.predicting && c.policy.threshold <= link.prob
    requires 0 < c.policy.budget <= c.policy.maxBudget && c.policy.defaultSize <= c.policy.budget
        && wire <= c.policy.budget
    ensures exists before, last ::
              && ValidRun(before + [last])
              && link.url in Run(c, before).sent
              && Run(c, before).log == []
              && Run(c, before + [last]).log == [Pushed(link.url, wire, 0, 1, 0.0, None)]
  {
    hide Run, After, Initial;
    var view, plan := Timed(0.0, View(page)), Timed(0.0, Resume(0, Predicted(Some([link]))));
    var fetch, arrived := Timed(0.0, Resume(0, Next)), Timed(0.0, Resume(0, Page(Some(wire))));
    var request, last := Timed(0.0, Answered(link.url)), Timed(0.0, Resume(0, Backlog(0)));
    var e0: seq<Timed> := [];
    var e1 := e0 + [view];
    var e2 := e1 + [plan];
    var e3 := e2 + [fetch];
    var e4 := e3 + [arrived];
    var before := e4 + [request];
    RunSnoc(c, e0, view);
    RunSnoc(c, e1, plan);
    RunSnoc(c, e2, fetch);
    RunSnoc(c, e3, arrived);
    RunSnoc(c, e4, request);
    RunSnoc(c, before, last);
    RunNothing(c);
    StartStep(c, page);
    PlanStep(c, page, link);
    FetchSteps(c, page, link, wire, c.policy.budget);
    LastSteps(c, page, link, wire, c.policy.budget);
    assert ValidRun(before + [last]);
  }
}
