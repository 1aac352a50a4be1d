/** Which interface the tunnel uses, and when the server is told that a dropout is coming.  Interfaces are
    numbered in the order they were configured. */
module PathManagement {
  import opened Prelude
  import opened LeastSquares
  import opened HandoverPrediction

  /** margin is the predictors' clear margin, used for health as well. */
  datatype Setup = Setup(predictor: Config, thresholds: seq<real>, sendHints: bool, expectedOutage: real)

  datatype Switch = Switch(from: nat, to: nat)

  datatype HintFrame = HintFrame(active: bool, eta: real, outage: real)

  /** levels and hints are empty until the first step. */
  datatype PathVal = PathVal(
    predictors: seq<PredictorVal>, levels: seq<real>, hints: seq<Option<Hint>>,
    active: nat, hintSent: bool, switches: seq<Switch>, sent: seq<HintFrame>)

  /** One decision's inputs: the time, each interface's signal, whether a ping was answered recently, and
      whether a migration and a send would succeed. */
  datatype Tick = Tick(t: real, dbm: seq<real>, alive: bool, migrates: bool, sends: bool)

  /** Interface i's predictor has its own threshold. */
  function ConfigOf(s: Setup, i: nat): Config
    requires i < |s.thresholds|
  {
    s.predictor.(threshold := s.thresholds[i])
  }

  function Initial(s: Setup, active: nat): PathVal {
    PathVal(seq(|s.thresholds|, i => PredictorVal([], None)), [], [], active, false, [], [])
  }

  ghost predicate WellSized(s: Setup, v: PathVal) {
    |v.predictors| == |s.thresholds| && v.active < |s.thresholds|
  }

  ghost predicate Ready(s: Setup, v: PathVal) {
    WellSized(s, v) && |v.levels| == |v.hints| == |s.thresholds|
  }

  predicate ValidTick(s: Setup, tick: Tick) { |tick.dbm| == |s.thresholds| }

  predicate Healthy(s: Setup, levels: seq<real>, hints: seq<Option<Hint>>, i: nat)
    requires i < |s.thresholds| == |levels| == |hints|
  {
    levels[i] > s.thresholds[i] + s.predictor.clearMargin && hints[i].None?
  }

  function Headroom(s: Setup, levels: seq<real>, i: nat): real
    requires i < |s.thresholds| == |levels|
  {
    levels[i] - s.thresholds[i]
  }

  /** The healthy other interface of greatest headroom among the first n; the first of equals. */
  function BestOf(s: Setup, levels: seq<real>, hints: seq<Option<Hint>>, active: nat, n: nat): (r: Option<nat>)
    requires n <= |s.thresholds| == |levels| == |hints|
    ensures r.Some? ==> r.value < n
  {
    if n == 0 then None
    else
      var best := BestOf(s, levels, hints, active, n - 1);
      if n - 1 == active || !Healthy(s, levels, hints, n - 1) then best
      else if best.Some? && Headroom(s, levels, best.value) >= Headroom(s, levels, n - 1) then best
      else Some(n - 1)
  }

  function Best(s: Setup, levels: seq<real>, hints: seq<Option<Hint>>, active: nat): (r: Option<nat>)
    requires |s.thresholds| == |levels| == |hints|
    ensures r.Some? ==> r.value < |s.thresholds|
  {
    BestOf(s, levels, hints, active, |s.thresholds|)
  }

  function Observe(s: Setup, v: PathVal, tick: Tick): (r: PathVal)
    requires Usable(s.predictor) && WellSized(s, v) && ValidTick(s, tick)
    ensures Ready(s, r)
  {
    var predictors := seq(|s.thresholds|, i requires 0 <= i < |s.thresholds| =>
      AfterUpdate(ConfigOf(s, i), v.predictors[i], tick.t, tick.dbm[i]));
    v.(predictors := predictors, levels := tick.dbm,
       hints := seq(|s.thresholds|, i requires 0 <= i < |s.thresholds| => predictors[i].active))
  }

  /** A dead link is left for the best alternative; whether the migration works does not change the choice. */
  function Move(s: Setup, v: PathVal, alive: bool): (r: PathVal)
    requires Ready(s, v)
    ensures Ready(s, r)
  {
    var best := Best(s, v.levels, v.hints, v.active);
    if !alive && best.Some? then
      v.(active := best.value, switches := v.switches + [Switch(v.active, best.value)])
    else v
  }

  predicate OutageComing(s: Setup, v: PathVal, alive: bool)
    requires Ready(s, v)
  {
    (v.hints[v.active].Some? || !alive) && Best(s, v.levels, v.hints, v.active).None?
  }

  function TheHint(s: Setup, hint: Option<Hint>, coming: bool): HintFrame {
    HintFrame(coming, if hint.Some? then hint.value.eta else 0.0, if coming then s.expectedOutage else 0.0)
  }

  function Announce(s: Setup, v: PathVal, coming: bool, sends: bool): PathVal
    requires Ready(s, v)
  {
    if s.sendHints && coming != v.hintSent && sends then
      var hint := v.hints[v.active];
      v.(hintSent := coming,
         sent := v.sent + [TheHint(s, hint, coming)])
    else v
  }

  function AfterStep(s: Setup, v: PathVal, tick: Tick): (r: PathVal)
    requires Usable(s.predictor) && WellSized(s, v) && ValidTick(s, tick)
    ensures Ready(s, r)
  {
    var seen := Observe(s, v, tick);
    var moved := Move(s, seen, tick.alive);
    var alive := tick.alive || moved.switches != seen.switches;
    Announce(s, moved, OutageComing(s, moved, alive), tick.sends)
  }

  // ------------------------------------------------------------------------------------- the class

  class PathManager {
    const setup: Setup
    const predictors: seq<HandoverPredictor>
    var levels: seq<real>
    var hints: seq<Option<Hint>>
    var active: nat
    var hintSent: bool
    var switches: seq<Switch>
    var sent: seq<HintFrame>

    ghost predicate Valid()
      reads this, predictors
    {
      && Usable(setup.predictor)
      && |predictors| == |setup.thresholds| && active < |predictors|
      && (forall i :: 0 <= i < |predictors| ==> predictors[i].config == ConfigOf(setup, i))
      && (forall i, j :: 0 <= i < j < |predictors| ==> predictors[i] != predictors[j])
    }

    ghost function Value(): PathVal
      reads this, predictors
    {
      PathVal(Values(), levels, hints, active, hintSent, switches, sent)
    }

    ghost function Values(): seq<PredictorVal>
      reads this, predictors
    {
      seq(|predictors|, i requires 0 <= i < |predictors| reads this, predictors => predictors[i].Value())
    }

    constructor (setup: Setup, predictors: seq<HandoverPredictor>, active: nat)
      requires Usable(setup.predictor) && |predictors| == |setup.thresholds| && active < |predictors|
      requires forall i :: 0 <= i < |predictors| ==> predictors[i].config == ConfigOf(setup, i)
      requires forall i :: 0 <= i < |predictors| ==> predictors[i].Value() == PredictorVal([], None)
      requires forall i, j :: 0 <= i < j < |predictors| ==> predictors[i] != predictors[j]
      ensures this.setup == setup && this.predictors == predictors
      ensures Valid() && Value() == Initial(setup, active)
    {
      this.setup, this.predictors, this.active := setup, predictors, active;
      levels, hints, hintSent, switches, sent := [], [], false, [], [];
    }

    /** Feeds every interface's sample to its predictor. */
    method ReadSignals(t: real, dbm: seq<real>)
      requires Valid() && |dbm| == |predictors|
      modifies this`levels, this`hints, predictors
      ensures Valid()
      ensures forall tick: Tick :: tick.t == t && tick.dbm == dbm ==> Value() == Observe(setup, old(Value()), tick)
    {
      hide AfterUpdate, Raises;
      var newHints: seq<Option<Hint>> := [];
      for i := 0 to |predictors|
        invariant |newHints| == i
        invariant Valid()
        invariant forall j :: 0 <= j < i ==>
          && predictors[j].Value() == AfterUpdate(ConfigOf(setup, j), old(predictors[j].Value()), t, dbm[j])
          && newHints[j] == predictors[j].active
        invariant forall j :: i <= j < |predictors| ==> predictors[j].Value() == old(predictors[j].Value())
      {
        UsableNeverRaises(ConfigOf(setup, i), predictors[i].Value(), t, dbm[i]);
        var hint, raised := predictors[i].Update(t, dbm[i]);
        newHints := newHints + [hint];
      }
      levels, hints := dbm, newHints;
    }

    /** The healthiest other interface. */
    method BestAlternative() returns (best: Option<nat>)
      requires Valid() && |levels| == |hints| == |predictors|
      ensures best == Best(setup, levels, hints, active)
    {
      best := None;
      for i := 0 to |predictors|
        invariant best == BestOf(setup, levels, hints, active, i)
      {
        if i != active && Healthy(setup, levels, hints, i) {
          if best.None? || Headroom(setup, levels, i) > Headroom(setup, levels, best.value) {
            best := Some(i);
          }
        }
      }
    }

    /** One decision. */
    method Step(tick: Tick)
      requires Valid() && ValidTick(setup, tick)
      modifies this, predictors
      ensures Valid()
      ensures Value() == AfterStep(setup, old(Value()), tick)
    {
      var alive := tick.alive;
      ReadSignals(tick.t, tick.dbm);
      ghost var seen := Value();
      assert seen == Observe(setup, old(Value()), tick);
      hide Observe, Best, Announce, OutageComing, ConfigOf;
      var best := BestAlternative();
      if !alive && best.Some? {
        SwitchTo(best.value, tick.migrates);
        alive := true;
      }
      ghost var moved := Value();
      assert moved == Move(setup, seen, tick.alive);
      Tell(alive, tick.sends);
    }

    /** Tells the server when the outlook changes. */
    method Tell(alive: bool, sends: bool)
      requires Valid() && |levels| == |hints| == |predictors|
      modifies this`hintSent, this`sent
      ensures Valid()
      ensures Value() == Announce(setup, old(Value()), OutageComing(setup, old(Value()), alive), sends)
    {
      hide Best, TheHint, ConfigOf;
      var warned := hints[active].Some?;
      var other := BestAlternative();
      var outageComing := (warned || !alive) && other.None?;
      if setup.sendHints && outageComing != hintSent {
        SendHint(outageComing, sends);
      }
    }

    method SwitchTo(to: nat, migrates: bool)
      requires to < |predictors|
      modifies this`active, this`switches
      ensures active == to && switches == old(switches) + [Switch(old(active), to)]
    {
      switches := switches + [Switch(active, to)];
      active := to;
      // a failed or late migration is only logged
    }

    method SendHint(coming: bool, sends: bool)
      requires active < |hints|
      modifies this`hintSent, this`sent
      ensures sends ==> hintSent == coming && sent == old(sent) + [TheHint(setup, hints[active], coming)]
      ensures !sends ==> hintSent == old(hintSent) && sent == old(sent)
    {
      var hint := hints[active];
      if !sends {
        return;  // the link is gone: tried again at the next step
      }
      sent := sent + [HintFrame(coming, if hint.Some? then hint.value.eta else 0.0,
                                if coming then setup.expectedOutage else 0.0)];
      hintSent := coming;
    }
  }

  // ---------------------------------------------------------------------------------- single steps

  /** Best is a healthy other interface, none of which has more headroom and no earlier one as much; there
      is none only if no other interface is healthy. */
  lemma {:induction false} BestIsGreatest(s: Setup, levels: seq<real>, hints: seq<Option<Hint>>, active: nat, n: nat)
    requires n <= |s.thresholds| == |levels| == |hints|
    ensures var best := BestOf(s, levels, hints, active, n);
            && (best.None? <==> forall i :: 0 <= i < n && i != active ==> !Healthy(s, levels, hints, i))
            && (best.Some? ==>
                  && best.value != active && Healthy(s, levels, hints, best.value)
                  && forall i :: 0 <= i < n && i != active && Healthy(s, levels, hints, i) ==>
                       && Headroom(s, levels, i) <= Headroom(s, levels, best.value)
                       && (i < best.value ==> Headroom(s, levels, i) < Headroom(s, levels, best.value)))
  {
    if n > 0 {
      BestIsGreatest(s, levels, hints, active, n - 1);
    }
  }

  ghost predicate OtherHealthy(s: Setup, v: PathVal, i: nat)
    requires Ready(s, v)
  {
    i < |s.thresholds| && i != v.active && v.hints[i].None?
        && v.levels[i] > s.thresholds[i] + s.predictor.clearMargin
  }

  ghost predicate SomewhereToGo(s: Setup, v: PathVal)
    requires Ready(s, v)
  {
    exists i :: OtherHealthy(s, v, i)
  }

  lemma BestFound(s: Setup, v: PathVal)
    requires Ready(s, v)
    ensures var best := Best(s, v.levels, v.hints, v.active);
            && (best.Some? <==> SomewhereToGo(s, v))
            && (best.Some? ==>
                  && OtherHealthy(s, v, best.value)
                  && forall i: nat :: OtherHealthy(s, v, i) ==>
                       v.levels[i] - s.thresholds[i] <= v.levels[best.value] - s.thresholds[best.value])
  {
    BestIsGreatest(s, v.levels, v.hints, v.active, |s.thresholds|);
    var best := Best(s, v.levels, v.hints, v.active);
    forall i: nat | i < |s.thresholds|
      ensures OtherHealthy(s, v, i) <==> i != v.active && Healthy(s, v.levels, v.hints, i)
      ensures Headroom(s, v.levels, i) == v.levels[i] - s.thresholds[i]
    {}
    hide Best, Healthy;
    if best.Some? {
      assert OtherHealthy(s, v, best.value);
    }
  }

  /** The interface moved to is healthy and has the greatest headroom of those. */
  ghost predicate WellChosen(s: Setup, v: PathVal, to: nat)
    requires Ready(s, v)
  {
    && OtherHealthy(s, v, to)
    && forall i: nat :: OtherHealthy(s, v, i) ==> v.levels[i] - s.thresholds[i] <= v.levels[to] - s.thresholds[to]
  }

  lemma MovesRight(s: Setup, v: PathVal, alive: bool)
    requires Ready(s, v)
    ensures var after := Move(s, v, alive);
            && (after.switches != v.switches <==> !alive && SomewhereToGo(s, v))
            && (after.switches != v.switches ==>
                  && WellChosen(s, v, after.active) && after.hints[after.active].None?
                  && after.switches == v.switches + [Switch(v.active, after.active)])
            && (after.switches == v.switches ==> after.active == v.active)
            && after.hintSent == v.hintSent && after.sent == v.sent
            && after.hints == v.hints && after.levels == v.levels && after.predictors == v.predictors
  {
    BestFound(s, v);
    hide Best;
    assert v.switches + [Switch(v.active, 0)] != v.switches;
  }

  lemma AnnounceAppends(s: Setup, v: PathVal, coming: bool, sends: bool)
    requires Ready(s, v)
    ensures var after := Announce(s, v, coming, sends);
            && (after.sent != v.sent <==> s.sendHints && sends && coming != v.hintSent)
            && (after.sent != v.sent ==>
                  after.sent == v.sent + [TheHint(s, v.hints[v.active], coming)] && after.hintSent == coming)
            && (after.sent == v.sent ==> after.hintSent == v.hintSent)
            && after.(sent := v.sent, hintSent := v.hintSent) == v
  {}

  /** A step switches exactly when the link is unanswered and another interface is healthy, and then to a
      healthy one of greatest headroom. */
  lemma SwitchesRight(s: Setup, v: PathVal, tick: Tick)
    requires Usable(s.predictor) && WellSized(s, v) && ValidTick(s, tick)
    ensures var seen, after := Observe(s, v, tick), AfterStep(s, v, tick);
            && (after.switches != v.switches <==> !tick.alive && SomewhereToGo(s, seen))
            && (after.switches != v.switches ==>
                  WellChosen(s, seen, after.active) && after.switches == v.switches + [Switch(v.active, after.active)])
            && (after.switches == v.switches ==> after.active == v.active)
  {
    hide AfterUpdate, Best, Move, Announce, WellChosen, SomewhereToGo, OutageComing;
    var seen := Observe(s, v, tick);
    var moved := Move(s, seen, tick.alive);
    MovesRight(s, seen, tick.alive);
    var coming := OutageComing(s, moved, tick.alive || moved.switches != seen.switches);
    AnnounceAppends(s, moved, coming, tick.sends);
  }

  /** The outlook after a step: the link in use is warned, or unanswered with no other to go to, and no other
      interface is healthy. */
  ghost predicate Bleak(s: Setup, after: PathVal, answered: bool)
    requires Ready(s, after)
  {
    (after.hints[after.active].Some? || !answered) && !SomewhereToGo(s, after)
  }

  /** A hint goes out exactly when hints are on, the outlook differs from what the server was last told and
      the send succeeds; it tells that outlook.  A step that switches never announces an outage. */
  lemma AnnouncesRight(s: Setup, v: PathVal, tick: Tick)
    requires Usable(s.predictor) && WellSized(s, v) && ValidTick(s, tick)
    ensures var after := AfterStep(s, v, tick);
            var switched := after.switches != v.switches;
            var bad := Bleak(s, after, tick.alive || switched);
            && (after.sent != v.sent <==> s.sendHints && tick.sends && bad != v.hintSent)
            && (after.sent != v.sent ==>
                  after.sent == v.sent + [TheHint(s, after.hints[after.active], bad)] && after.hintSent == bad)
            && (after.sent == v.sent ==> after.hintSent == v.hintSent)
            && (switched ==> !bad)
  {
    hide AfterUpdate, Best, Move, Announce, WellChosen, SomewhereToGo, TheHint;
    var seen := Observe(s, v, tick);
    var moved := Move(s, seen, tick.alive);
    MovesRight(s, seen, tick.alive);
    var answered := tick.alive || moved.switches != seen.switches;
    BestFound(s, moved);
    var coming := OutageComing(s, moved, answered);
    AnnounceAppends(s, moved, coming, tick.sends);
    var after := AfterStep(s, v, tick);
    SameOutlook(s, moved, after);
  }

  lemma SameOutlook(s: Setup, v: PathVal, w: PathVal)
    requires Ready(s, v) && Ready(s, w) && v.levels == w.levels && v.hints == w.hints && v.active == w.active
    ensures SomewhereToGo(s, v) == SomewhereToGo(s, w)
  {
    assert forall i :: OtherHealthy(s, v, i) == OtherHealthy(s, w, i);
  }

  // ------------------------------------------------------------------------------------------ runs

  ghost predicate ValidTicks(s: Setup, ticks: seq<Tick>) {
    forall tick <- ticks :: ValidTick(s, tick)
  }

  ghost function Run(s: Setup, active: nat, ticks: seq<Tick>): (r: PathVal)
    requires Usable(s.predictor) && active < |s.thresholds| && ValidTicks(s, ticks)
    ensures WellSized(s, r)
  {
    if ticks == [] then Initial(s, active)
    else AfterStep(s, Run(s, active, ticks[..|ticks| - 1]), ticks[|ticks| - 1])
  }

  ghost predicate Alternates(sent: seq<HintFrame>, last: bool) {
    && (forall i :: 0 <= i < |sent| ==> (sent[i].active <==> i % 2 == 0))
    && (last <==> |sent| % 2 == 1)
  }

  /** Over every run, with sends and migrations failing at will, the hints that got out alternate: an
      outage, its end, an outage, ... */
  lemma {:induction false} HintsAlternate(s: Setup, active: nat, ticks: seq<Tick>)
    requires Usable(s.predictor) && active < |s.thresholds| && ValidTicks(s, ticks)
    ensures Alternates(Run(s, active, ticks).sent, Run(s, active, ticks).hintSent)
    ensures !s.sendHints ==> Run(s, active, ticks).sent == []
  {
    if ticks != [] {
      var v := Run(s, active, ticks[..|ticks| - 1]);
      HintsAlternate(s, active, ticks[..|ticks| - 1]);
      AnnouncesRight(s, v, ticks[|ticks| - 1]);
      var after := Run(s, active, ticks);
      AlternatesAppend(v.sent, v.hintSent, TheHint(s, after.hints[after.active], !v.hintSent));
      hide AfterStep, Bleak, TheHint, Alternates;
    }
  }

  lemma AlternatesAppend(sent: seq<HintFrame>, last: bool, f: HintFrame)
    requires Alternates(sent, last) && f.active == !last
    ensures Alternates(sent + [f], !last)
  {}

  /** The switches form one path from the first interface to the one in use. */
  ghost predicate Path(first: nat, switches: seq<Switch>, last: nat) {
    && (switches == [] ==> first == last)
    && (switches != [] ==> switches[0].from == first && switches[|switches| - 1].to == last)
    && (forall i :: 0 <= i < |switches| ==> switches[i].from != switches[i].to)
    && (forall i :: 0 <= i < |switches| - 1 ==> switches[i].to == switches[i + 1].from)
  }

  lemma {:induction false} SwitchesFormAPath(s: Setup, active: nat, ticks: seq<Tick>)
    requires Usable(s.predictor) && active < |s.thresholds| && ValidTicks(s, ticks)
    ensures Path(active, Run(s, active, ticks).switches, Run(s, active, ticks).active)
  {
    if ticks != [] {
      var v := Run(s, active, ticks[..|ticks| - 1]);
      SwitchesFormAPath(s, active, ticks[..|ticks| - 1]);
      SwitchesRight(s, v, ticks[|ticks| - 1]);
      PathAppend(active, v.switches, v.active, Run(s, active, ticks).active);
      hide AfterStep, Observe, SomewhereToGo, Headroom, Path;
    }
  }

  lemma PathAppend(first: nat, switches: seq<Switch>, last: nat, to: nat)
    requires Path(first, switches, last)
    ensures last != to ==> Path(first, switches + [Switch(last, to)], to)
  {}

  /** What interface i's predictor has been fed. */
  function Fed(ticks: seq<Tick>, i: nat): seq<Sample>
    requires forall tick <- ticks :: i < |tick.dbm|
  {
    seq(|ticks|, k requires 0 <= k < |ticks| => Sample(ticks[k].t, ticks[k].dbm[i]))
  }

  /** Every predictor has its own interface's threshold and sees exactly that interface's signal, whatever is
      switched to in between. */
  lemma {:induction false} PredictorsAreIndependent(s: Setup, active: nat, ticks: seq<Tick>, i: nat)
    requires Usable(s.predictor) && active < |s.thresholds| && ValidTicks(s, ticks) && i < |s.thresholds|
    ensures var own := s.predictor.(threshold := s.thresholds[i]);
            && Run(s, active, ticks).predictors[i] == HandoverPrediction.Run(own, Fed(ticks, i))
            && (ticks != [] ==> Run(s, active, ticks).hints[i] == HandoverPrediction.Run(own, Fed(ticks, i)).active)
  {
    hide AfterUpdate;
    if ticks != [] {
      var front := ticks[..|ticks| - 1];
      PredictorsAreIndependent(s, active, front, i);
      assert Fed(ticks, i)[..|ticks| - 1] == Fed(front, i);
      StepObserves(s, Run(s, active, front), ticks[|ticks| - 1]);
      hide AfterStep;
    }
  }

  lemma StepObserves(s: Setup, v: PathVal, tick: Tick)
    requires Usable(s.predictor) && WellSized(s, v) && ValidTick(s, tick)
    ensures var seen, after := Observe(s, v, tick), AfterStep(s, v, tick);
            after.predictors == seen.predictors && after.hints == seen.hints && after.levels == seen.levels
  {
    hide Observe, Best, OutageComing;
  }

  /** So every hint the server gets announces a time between now and the horizon. */
  lemma {:induction false} SentHintsInRange(s: Setup, active: nat, ticks: seq<Tick>)
    requires Usable(s.predictor) && s.predictor.horizon >= 0.0
    requires active < |s.thresholds| && ValidTicks(s, ticks)
    ensures forall f <- Run(s, active, ticks).sent :: 0.0 <= f.eta <= s.predictor.horizon
  {
    if ticks != [] {
      SentHintsInRange(s, active, ticks[..|ticks| - 1]);
      var v := Run(s, active, ticks[..|ticks| - 1]);
      var after := Run(s, active, ticks);
      PredictorsAreIndependent(s, active, ticks, after.active);
      HintAlwaysInRange(ConfigOf(s, after.active), Fed(ticks, after.active));
      AnnouncesRight(s, v, ticks[|ticks| - 1]);
      hide AfterStep, Bleak, HandoverPrediction.Run;
    }
  }

  /** What the interface's own predictor says. */
  ghost function Predicted(s: Setup, ticks: seq<Tick>, i: nat): Option<Hint>
    requires i < |s.thresholds| && ValidTicks(s, ticks)
  {
    HandoverPrediction.Run(s.predictor.(threshold := s.thresholds[i]), Fed(ticks, i)).active
  }

  /** The frame that goes out says what is known: whether an outage is coming, the time that the predictor of the
      interface now in use announces (0 if it announces none), and the outage expected. */
  lemma SentHintTells(s: Setup, active: nat, ticks: seq<Tick>, tick: Tick)
    requires Usable(s.predictor) && active < |s.thresholds| && ValidTicks(s, ticks) && ValidTick(s, tick)
    requires ValidTicks(s, ticks + [tick])
    ensures var v, r := Run(s, active, ticks), Run(s, active, ticks + [tick]);
            r.sent != v.sent ==>
              && |r.sent| == |v.sent| + 1 && r.sent[..|v.sent|] == v.sent
              && var f, hint := r.sent[|v.sent|], Predicted(s, ticks + [tick], r.active);
                 && f.active == r.hintSent != v.hintSent
                 && f.eta == (if hint.Some? then hint.value.eta else 0.0)
                 && f.outage == (if f.active then s.expectedOutage else 0.0)
  {
    var v := Run(s, active, ticks);
    var all := ticks + [tick];
    assert all[..|ticks|] == ticks && all[|ticks|] == tick;
    AnnouncesRight(s, v, tick);
    PredictorsAreIndependent(s, active, all, Run(s, active, all).active);
    hide AfterStep, Bleak, HandoverPrediction.Run;
  }
}
