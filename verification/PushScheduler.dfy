/** The server's prefetching for one client: cancellable background tasks that share the set of pages the
    client has, one byte budget per plan, the acknowledgement backlog and the dropout deadline.

    Each step lies within one stretch between two awaits of the event loop; time, predictions, fetches,
    acknowledgements and the order of steps are the environment's choice. */
module PushScheduling {
  import opened Prelude
  import opened Prefetching

  datatype Setup = Setup(policy: PolicyConfig, adaptive: bool, predicting: bool)

  /** Where a task waits.  Pushing runs through the links of one depth; links and answers still to come of
      depth 2 are kept beside it. */
  datatype Stage = Head | Fetching | Waiting(wire: nat)

  datatype Pc =
    | Starting
    | Pushing(depth: nat, todo: seq<Link>, stage: Stage, k: nat, rest: seq<seq<Link>>)
    | Expanding(k: nat, parents: seq<Link>)
    | Children(k: nat, rest: seq<seq<Link>>)
    | Done

  /** probs are the predictions that the plan was made from. */
  datatype Task = Task(cancelled: bool, limit: int, spent: nat, probs: seq<Link>, pc: Pc)

  const NEW_TASK := Task(false, 0, 0, [], Starting)

  /** One push: of which plan (task) and depth, when, and the deadline at that moment. */
  datatype Pushed = Pushed(url: string, wire: nat, plan: nat, depth: nat, at: real, deadline: Option<real>)

  datatype State = State(
    current: Option<string>, sent: set<string>, outlook: Outlook, offlineFrom: Option<real>,
    prefetch: Option<nat>, tasks: seq<Task>, log: seq<Pushed>, unacked: nat)

  /** What a task is woken up with. */
  datatype Outcome =
    | Next
    | Predicted(probs: Option<seq<Link>>)
    | Page(wire: Option<nat>)
    | Backlog(bytes: nat)
    | Expanded(answers: seq<seq<Link>>)

  datatype Event =
    | View(url: string)
    | Hint(active: bool, eta: Option<real>, outage: real, metered: Option<bool>)
    | Answered(url: string)
    | Resume(task: nat, outcome: Outcome)
    | Acked(bytes: nat)

  function Initial(): State {
    State(None, {}, Outlook(false, 0.0, false), None, None, [], [], 0)
  }

  predicate Offline(deadline: Option<real>, now: real) { deadline.Some? && now >= deadline.value }

  // -------------------------------------------------------------------------------- views and hints

  function Cancelled(tasks: seq<Task>, prefetch: Option<nat>): seq<Task> {
    if prefetch.Some? && prefetch.value < |tasks|
    then tasks[prefetch.value := tasks[prefetch.value].(cancelled := true)] else tasks
  }

  function AfterView(c: Setup, s: State, now: real, url: string): State {
    if !c.predicting then s
    else if Offline(s.offlineFrom, now) then s.(current := Some(url))
    else s.(current := Some(url), prefetch := Some(|s.tasks|),
            tasks := Cancelled(s.tasks, s.prefetch) + [NEW_TASK])
  }

  function Deadline(c: PolicyConfig, before: Option<real>, now: real, active: bool, eta: Option<real>): Option<real> {
    if !active then None
    else if eta.Some? then Some(now + if eta.value - c.pushStopMargin > 0.0 then eta.value - c.pushStopMargin else 0.0)
    else before
  }

  /** A hint before its re-plan. */
  function Hinted(c: Setup, s: State, now: real, e: Event): State
    requires e.Hint?
  {
    s.(outlook := Outlook(e.active, e.outage, if e.metered.Some? then e.metered.value else s.outlook.metered),
       offlineFrom := Deadline(c.policy, s.offlineFrom, now, e.active, e.eta))
  }

  function AfterHint(c: Setup, s: State, now: real, e: Event): State
    requires e.Hint?
  {
    var told := Hinted(c, s, now, e);
    if e.active && s.current.Some? then AfterView(c, told, now, s.current.value) else told
  }

  // ------------------------------------------------------------------------------------------ tasks

  /** The pages to expand: all that is likely enough to push at depth 1, held by the client or not. */
  function Parents(c: Setup, o: Outlook, probs: seq<Link>): seq<Link> {
    Plan(c.policy, c.adaptive, probs, o, map[], {})
  }

  /** Leaving the push loop: depth 1 goes on to depth 2 if the outlook asks for it. */
  function PushDone(c: Setup, o: Outlook, t: Task): Task
    requires t.pc.Pushing?
  {
    if t.pc.depth == 1 then
      var k := Depth2K(c.policy, c.adaptive, o);
      t.(pc := if k == 0 then Done else Expanding(k, Parents(c, o, t.probs)))
    else t.(pc := Children(t.pc.k, t.pc.rest))
  }

  function Unsent(links: seq<Link>, sent: set<string>): seq<Link> {
    if links == [] then []
    else
      var front, x := Unsent(links[..|links| - 1], sent), links[|links| - 1];
      if x.url in sent then front else front + [x]
  }

  /** The k most likely links of a child page that the client lacks. */
  function Picks(answer: seq<Link>, sent: set<string>, k: nat): seq<Link> {
    var links := Unsent(Ranked(answer), sent);
    if |links| <= k then links else links[..k]
  }

  function Skip(t: Task): Task
    requires t.pc.Pushing? && t.pc.todo != []
  {
    t.(pc := t.pc.(todo := t.pc.todo[1..], stage := Head))
  }

  /** A step of a task that pushes nothing. */
  function Moved(c: Setup, outlook: Outlook, sent: set<string>, off: bool, t: Task, o: Outcome): Task {
    match t.pc {
      case Starting =>
        if !o.Predicted? then t
        else if o.probs.None? then t.(pc := Done)
        else
          t.(limit := Limits(c.policy, c.adaptive, outlook).1, probs := o.probs.value,
             pc := Pushing(1, Plan(c.policy, c.adaptive, o.probs.value, outlook, map[], sent), Head, 0, []))
      case Pushing(depth, todo, stage, k, rest) =>
        if stage.Head? && o.Next? then
          if todo == [] || t.spent >= t.limit || off then PushDone(c, outlook, t)
          else t.(pc := t.pc.(stage := Fetching))
        else if stage.Fetching? && o.Page? && todo != [] then
          if o.wire.None? || t.spent + o.wire.value > t.limit then Skip(t)
          else t.(pc := t.pc.(stage := Waiting(o.wire.value)))
        else if stage.Waiting? && o.Backlog? && off then PushDone(c, outlook, t)
        else t
      case Expanding(k, parents) => // an empty answer for a page that could not be fetched or predicted
        if o.Expanded? && |o.answers| == |parents| then t.(pc := Children(k, o.answers)) else t
      case Children(k, rest) =>
        if !o.Next? then t
        else if rest == [] || t.spent >= t.limit || off then t.(pc := Done)
        else if rest[0] == [] then t.(pc := Children(k, rest[1..]))
        else t.(pc := Pushing(2, Picks(rest[0], sent, k), Head, k, rest[1..]))
      case Done => t
    }
  }

  /** An empty backlog always has room. */
  predicate Full(bytes: nat, cap: nat, wire: nat) { bytes != 0 && bytes + wire > cap }

  /** The backlog has room and the dropout is not due. */
  predicate Pushes(c: Setup, s: State, now: real, t: Task, o: Outcome) {
    && t.pc.Pushing? && t.pc.stage.Waiting? && t.pc.todo != [] && o.Backlog?
    && !Full(o.bytes, c.policy.maxBacklog, t.pc.stage.wire)
    && !Offline(s.offlineFrom, now)
  }

  function AfterPush(s: State, now: real, i: nat): State
    requires i < |s.tasks| && s.tasks[i].pc.Pushing? && s.tasks[i].pc.stage.Waiting? && s.tasks[i].pc.todo != []
  {
    var t := s.tasks[i];
    var url, wire := t.pc.todo[0].url, t.pc.stage.wire;
    s.(tasks := s.tasks[i := Skip(t).(spent := t.spent + wire)],
       sent := s.sent + {url}, unacked := s.unacked + wire,
       log := s.log + [Pushed(url, wire, i, t.pc.depth, now, s.offlineFrom)])
  }

  /** A cancelled task never gets past the await it was cancelled at. */
  function AfterResume(c: Setup, s: State, now: real, i: nat, o: Outcome): State {
    if i >= |s.tasks| || s.tasks[i].cancelled then s
    else if Pushes(c, s, now, s.tasks[i], o) then AfterPush(s, now, i)
    else s.(tasks := s.tasks[i := Moved(c, s.outlook, s.sent, Offline(s.offlineFrom, now), s.tasks[i], o)])
  }

  function After(c: Setup, s: State, now: real, e: Event): State {
    match e
    case View(url) => AfterView(c, s, now, url)
    case Hint(_, _, _, _) => AfterHint(c, s, now, e)
    case Answered(url) => s.(sent := s.sent + {url})
    case Resume(i, o) => AfterResume(c, s, now, i, o)
    case Acked(n) => s.(unacked := if n <= s.unacked then s.unacked - n else 0)
  }

  // -------------------------------------------------------------------------------------- the class

  /** The server's record of one client. */
  class ClientRecord {
    const setup: Setup
    var current: Option<string>
    var sent: set<string>
    var outlook: Outlook
    var offlineFrom: Option<real>
    var prefetch: Option<nat>
    var tasks: seq<Task>
    var log: seq<Pushed>
    var unacked: nat

    ghost function Value(): State
      reads this
    {
      State(current, sent, outlook, offlineFrom, prefetch, tasks, log, unacked)
    }

    constructor (setup: Setup)
      ensures this.setup == setup && Value() == Initial()
    {
      this.setup := setup;
      current, sent, outlook, offlineFrom := None, {}, Outlook(false, 0.0, false), None;
      prefetch, tasks, log, unacked := None, [], [], 0;
    }

    /** The reader is now on url: a new task replaces the old one, unless the client is about to be
        unreachable. */
    method PageViewed(now: real, url: string)
      modifies this
      ensures Value() == AfterView(setup, old(Value()), now, url)
    {
      if !setup.predicting {
        return;
      }
      current := Some(url);
      if Offline(offlineFrom, now) {
        return;
      }
      if prefetch.Some? && prefetch.value < |tasks| {
        tasks := tasks[prefetch.value := tasks[prefetch.value].(cancelled := true)];
      }
      prefetch := Some(|tasks|);
      tasks := tasks + [NEW_TASK];
    }

    method OnHint(now: real, active: bool, eta: Option<real>, outage: real, metered: Option<bool>)
      modifies this
      ensures Value() == AfterHint(setup, old(Value()), now, Hint(active, eta, outage, metered))
    {
      outlook := Outlook(active, outage, if metered.Some? then metered.value else outlook.metered);
      if !active {
        offlineFrom := None;
      } else if eta.Some? {
        var ahead := eta.value - setup.policy.pushStopMargin;
        offlineFrom := Some(now + if ahead > 0.0 then ahead else 0.0);
      }
      if active && current.Some? {
        PageViewed(now, current.value);
      }
    }

    method OnAnswered(url: string)
      modifies this`sent
      ensures Value() == After(setup, old(Value()), 0.0, Answered(url))
    {
      sent := sent + {url};
    }

    method OnAcked(bytes: nat)
      modifies this`unacked
      ensures Value() == After(setup, old(Value()), 0.0, Acked(bytes))
    {
      unacked := if bytes <= unacked then unacked - bytes else 0;
    }

    /** Task i gets the result it was waiting for. */
    method OnResume(now: real, i: nat, o: Outcome)
      modifies this
      ensures Value() == AfterResume(setup, old(Value()), now, i, o)
    {
      if i >= |tasks| || tasks[i].cancelled {
        return;
      }
      if tasks[i].pc.Pushing? && tasks[i].pc.stage.Waiting? && o.Backlog? {
        BacklogSeen(now, i, o.bytes);
      } else {
        Advance(i, Offline(offlineFrom, now), o);
      }
    }

    /** Everything but the look at the backlog. */
    method Advance(i: nat, off: bool, o: Outcome)
      requires i < |tasks| && !(tasks[i].pc.Pushing? && tasks[i].pc.stage.Waiting? && o.Backlog?)
      modifies this`tasks
      ensures tasks == old(tasks)[i := Moved(setup, outlook, sent, off, old(tasks)[i], o)]
    {
      hide Limits, Plan, Picks, Depth2K, PushDone, Parents;
      var pc := tasks[i].pc;
      match pc {
        case Starting =>
          if o.Predicted? {
            StartPlan(i, o.probs);
          }
        case Pushing(_, todo, stage, _, _) =>
          if stage.Head? && o.Next? {
            if todo == [] || tasks[i].spent >= tasks[i].limit || off {
              LeavePushLoop(i);
            } else {
              tasks := tasks[i := tasks[i].(pc := pc.(stage := Fetching))];
            }
          } else if stage.Fetching? && o.Page? && todo != [] {
            PageFetched(i, o.wire);
          }
        case Expanding(k, parents) =>
          if o.Expanded? && |o.answers| == |parents| {
            tasks := tasks[i := tasks[i].(pc := Children(k, o.answers))];
          }
        case Children(k, rest) =>
          if o.Next? {
            if rest == [] || tasks[i].spent >= tasks[i].limit || off {
              tasks := tasks[i := tasks[i].(pc := Done)];
            } else if rest[0] == [] {
              tasks := tasks[i := tasks[i].(pc := Children(k, rest[1..]))];
            } else {
              var picks := PickLinks(rest[0], k);
              tasks := tasks[i := tasks[i].(pc := Pushing(2, picks, Head, k, rest[1..]))];
            }
          }
        case Done =>
      }
    }

    /** The prediction is there: the plan and its budget are fixed. */
    method StartPlan(i: nat, probs: Option<seq<Link>>)
      requires i < |tasks| && tasks[i].pc.Starting?
      modifies this`tasks
      ensures tasks == old(tasks)[i := Moved(setup, outlook, sent, false, old(tasks)[i], Predicted(probs))]
    {
      hide Limits, Plan, Picks, Depth2K;
      if probs.None? {
        tasks := tasks[i := tasks[i].(pc := Done)];
        return;
      }
      var d := Decide(setup.policy, setup.adaptive, probs.value, outlook, map[], sent);
      tasks := tasks[i := tasks[i].(limit := d.budget, probs := probs.value, pc := Pushing(1, d.urls, Head, 0, []))];
    }

    method LeavePushLoop(i: nat)
      requires i < |tasks| && tasks[i].pc.Pushing?
      modifies this`tasks
      ensures tasks == old(tasks)[i := PushDone(setup, outlook, old(tasks)[i])]
    {
      hide Plan, Limits, Depth2K;
      if tasks[i].pc.depth == 1 {
        var k := Depth2K(setup.policy, setup.adaptive, outlook);
        if k == 0 {
          tasks := tasks[i := tasks[i].(pc := Done)];
        } else {
          var parents := Decide(setup.policy, setup.adaptive, tasks[i].probs, outlook, map[], {});
          tasks := tasks[i := tasks[i].(pc := Expanding(k, parents.urls))];
        }
      } else {
        tasks := tasks[i := tasks[i].(pc := Children(tasks[i].pc.k, tasks[i].pc.rest))];
      }
    }

    /** A page that could not be fetched, or does not fit the budget, is passed over. */
    method PageFetched(i: nat, wire: Option<nat>)
      requires i < |tasks| && tasks[i].pc.Pushing? && tasks[i].pc.stage.Fetching? && tasks[i].pc.todo != []
      modifies this`tasks
      ensures tasks == old(tasks)[i := Moved(setup, outlook, sent, false, old(tasks)[i], Page(wire))]
    {
      var t := tasks[i];
      if wire.None? || t.spent + wire.value > t.limit {
        tasks := tasks[i := t.(pc := t.pc.(todo := t.pc.todo[1..], stage := Head))];
      } else {
        tasks := tasks[i := t.(pc := t.pc.(stage := Waiting(wire.value)))];
      }
    }

    /** One look at the backlog: wait on, push, or stop. */
    method BacklogSeen(now: real, i: nat, bytes: nat)
      requires i < |tasks| && !tasks[i].cancelled && tasks[i].pc.Pushing? && tasks[i].pc.stage.Waiting?
      modifies this
      ensures Value() == AfterResume(setup, old(Value()), now, i, Backlog(bytes))
    {
      var t := tasks[i];
      if Offline(offlineFrom, now) {
        LeavePushLoop(i);
        hide PushDone;
        return;
      }
      if Full(bytes, setup.policy.maxBacklog, t.pc.stage.wire) || t.pc.todo == [] {
        return;
      }
      var target, wire := t.pc.todo[0].url, t.pc.stage.wire;
      tasks := tasks[i := t.(spent := t.spent + wire, pc := t.pc.(todo := t.pc.todo[1..], stage := Head))];
      sent := sent + {target};
      log := log + [Pushed(target, wire, i, t.pc.depth, now, offlineFrom)];
      unacked := unacked + wire;
    }

    /** The first k of a child page's ranked links that the client lacks. */
    method PickLinks(answer: seq<Link>, k: nat) returns (picks: seq<Link>)
      ensures picks == Picks(answer, sent, k)
    {
      var ranked := Ranked(answer);
      hide Ranked;
      var links: seq<Link> := [];
      for j := 0 to |ranked|
        invariant links == Unsent(ranked[..j], sent)
      {
        assert ranked[..j + 1][..j] == ranked[..j];
        if ranked[j].url !in sent {
          links := links + [ranked[j]];
        }
      }
      assert ranked[..|ranked|] == ranked;
      picks := if |links| <= k then links else links[..k];
    }
  }

  // ---------------------------------------------------------------------- waiting for the backlog

  /** One look at the world, every 20 ms: hints may have moved the deadline since the last. */
  datatype Look = Look(now: real, bytes: nat, deadline: Option<real>)

  predicate KeepsWaiting(look: Look, cap: nat, wire: nat) {
    Full(look.bytes, cap, wire) && !Offline(look.deadline, look.now)
  }

  /** Look n is the first that finds room or the dropout due; the answer is yes if room and no dropout. */
  ghost predicate Decides(looks: seq<Look>, n: nat, cap: nat, wire: nat, room: bool) {
    && n < |looks| && !KeepsWaiting(looks[n], cap, wire)
    && (forall k :: 0 <= k < n ==> KeepsWaiting(looks[k], cap, wire))
    && room == (!Full(looks[n].bytes, cap, wire) && !Offline(looks[n].deadline, looks[n].now))
  }

  /** Waits for room.  None: still waiting. */
  method WaitBacklog(cap: nat, wire: nat, looks: seq<Look>) returns (room: Option<bool>)
    ensures room.None? <==> forall k :: 0 <= k < |looks| ==> KeepsWaiting(looks[k], cap, wire)
    ensures room.Some? ==> exists n :: Decides(looks, n, cap, wire, room.value)
  {
    var n := 0;
    while n < |looks| && Full(looks[n].bytes, cap, wire)
      invariant n <= |looks|
      invariant forall k :: 0 <= k < n ==> KeepsWaiting(looks[k], cap, wire)
    {
      if Offline(looks[n].deadline, looks[n].now) {
        assert Decides(looks, n, cap, wire, false);
        return Some(false);
      }
      n := n + 1;
    }
    if n == |looks| {
      return None;
    }
    room := Some(!Offline(looks[n].deadline, looks[n].now));
    assert Decides(looks, n, cap, wire, room.value);
  }

  /** The waiting task's steps are those looks: it stays where it is, pushes, or leaves the push loop. */
  lemma LookMovesTask(c: Setup, s: State, now: real, t: Task, bytes: nat)
    requires t.pc.Pushing? && t.pc.stage.Waiting? && t.pc.todo != []
    ensures var look, cap, wire := Look(now, bytes, s.offlineFrom), c.policy.maxBacklog, t.pc.stage.wire;
            var moved := Moved(c, s.outlook, s.sent, Offline(s.offlineFrom, now), t, Backlog(bytes));
            if KeepsWaiting(look, cap, wire) then !Pushes(c, s, now, t, Backlog(bytes)) && moved == t
            else if !Offline(s.offlineFrom, now) then Pushes(c, s, now, t, Backlog(bytes))
            else !Pushes(c, s, now, t, Backlog(bytes)) && moved == PushDone(c, s.outlook, t)
  {}

  // ------------------------------------------------------------------------------------------ runs

  datatype Timed = Timed(now: real, event: Event)

  function Run(c: Setup, events: seq<Timed>): State {
    if events == [] then Initial()
    else
      var last := events[|events| - 1];
      After(c, Run(c, events[..|events| - 1]), last.now, last.event)
  }

  /** A prediction names each link once. */
  ghost predicate ValidOutcome(o: Outcome) {
    && (o.Predicted? && o.probs.Some? ==> DistinctUrls(o.probs.value))
    && (o.Expanded? ==> forall answer <- o.answers :: DistinctUrls(answer))
  }

  ghost predicate ValidRun(events: seq<Timed>) {
    forall x <- events :: x.event.Resume? ==> ValidOutcome(x.event.outcome)
  }

  // ------------------------------------------------------------------------------- one live task

  predicate CanStillPush(t: Task) { !t.cancelled && !t.pc.Done? }

  ghost predicate OneLive(tasks: seq<Task>, prefetch: Option<nat>) {
    && (prefetch.Some? ==> prefetch.value < |tasks|)
    && forall i :: 0 <= i < |tasks| && !tasks[i].cancelled ==> prefetch == Some(i)
  }

  lemma ResumeKeepsCancelled(c: Setup, s: State, now: real, i: nat, o: Outcome)
    ensures var r := AfterResume(c, s, now, i, o);
            && |r.tasks| == |s.tasks| && r.prefetch == s.prefetch
            && forall j :: 0 <= j < |s.tasks| ==> r.tasks[j].cancelled == s.tasks[j].cancelled
  {
    hide Limits, Plan, Picks, Depth2K;
  }

  lemma ViewKeepsOneLive(c: Setup, s: State, now: real, url: string)
    requires OneLive(s.tasks, s.prefetch)
    ensures var r := AfterView(c, s, now, url); OneLive(r.tasks, r.prefetch)
  {}

  lemma {:induction false} RunKeepsOneLive(c: Setup, events: seq<Timed>)
    ensures OneLive(Run(c, events).tasks, Run(c, events).prefetch)
  {
    if events != [] {
      var s, last := Run(c, events[..|events| - 1]), events[|events| - 1];
      RunKeepsOneLive(c, events[..|events| - 1]);
      match last.event {
        case View(url) => ViewKeepsOneLive(c, s, last.now, url);
        case Hint(_, _, _, _) =>
          if s.current.Some? {
            ViewKeepsOneLive(c, Hinted(c, s, last.now, last.event), last.now, s.current.value);
          }
        case Resume(i, o) => ResumeKeepsCancelled(c, s, last.now, i, o);
        case _ =>
      }
      hide AfterView, AfterHint, AfterResume;
    }
  }

  /** The looks at the backlog that task i takes during more, with the deadline as it was then. */
  function Looks(c: Setup, events: seq<Timed>, more: seq<Timed>, i: nat): seq<Look> {
    if more == [] then []
    else
      var front, last := more[..|more| - 1], more[|more| - 1];
      var before := Looks(c, events, front, i);
      if last.event.Resume? && last.event.task == i && last.event.outcome.Backlog?
      then before + [Look(last.now, last.event.outcome.bytes, Run(c, events + front).offlineFrom)] else before
  }

  /** A whole wait, whatever happens beside it: while the looks find neither room nor the dropout due, and
      nobody cancels it, a task that waits for the backlog stays exactly as it is. */
  lemma {:induction false} WaitsThrough(c: Setup, events: seq<Timed>, more: seq<Timed>, i: nat, t: Task)
    requires i < |Run(c, events).tasks| && Run(c, events).tasks[i] == t
    requires t.pc.Pushing? && t.pc.stage.Waiting? && t.pc.todo != []
    requires forall look <- Looks(c, events, more, i) :: KeepsWaiting(look, c.policy.maxBacklog, t.pc.stage.wire)
    ensures i < |Run(c, events + more).tasks|
    ensures Run(c, events + more).tasks[i] == t || Run(c, events + more).tasks[i] == t.(cancelled := true)
  {
    if more == [] {
      assert events + more == events;
    } else {
      var front, last := more[..|more| - 1], more[|more| - 1];
      WaitsThrough(c, events, front, i, t);
      assert (events + more)[..|events + more| - 1] == events + front;
      var s := Run(c, events + front);
      if last.event.Resume? && last.event.task == i && last.event.outcome.Backlog? {
        var look := Look(last.now, last.event.outcome.bytes, s.offlineFrom);
        assert look in Looks(c, events, more, i);
        LookMovesTask(c, s, last.now, t, look.bytes);
      }
      StaysWaiting(c, s, last.now, last.event, i, t);
      hide After, Looks;
    }
  }

  lemma StaysWaiting(c: Setup, s: State, now: real, e: Event, i: nat, t: Task)
    requires i < |s.tasks| && (s.tasks[i] == t || s.tasks[i] == t.(cancelled := true))
    requires t.pc.Pushing? && t.pc.stage.Waiting? && t.pc.todo != []
    requires e.Resume? && e.task == i && e.outcome.Backlog? ==>
               KeepsWaiting(Look(now, e.outcome.bytes, s.offlineFrom), c.policy.maxBacklog, t.pc.stage.wire)
    ensures var r := After(c, s, now, e);
            i < |r.tasks| && (r.tasks[i] == t || r.tasks[i] == t.(cancelled := true))
  {
    hide Limits, Plan, Picks, Depth2K, PushDone;
  }

  /** At any time at most one task of the client can still push, and it is the one last started. */
  lemma AtMostOneLive(c: Setup, events: seq<Timed>, i: nat, j: nat)
    requires i < |Run(c, events).tasks| && j < |Run(c, events).tasks|
    requires CanStillPush(Run(c, events).tasks[i]) && CanStillPush(Run(c, events).tasks[j])
    ensures i == j && Run(c, events).prefetch == Some(i)
  {
    RunKeepsOneLive(c, events);
  }
}
