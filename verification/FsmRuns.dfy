/** Whole runs of the pure machine: any list of events fed to `step`, rejected events ignored, as
    `handle_transition` does (src/fsm/logic.rs:1010-1024). */
module FsmRuns {
  import opened Common
  import opened FsmDomain

  /** State reached and all actions emitted, in order. */
  function Run(s: FsmState, es: seq<Event>): (FsmState, seq<Action>)
    decreases |es|
  {
    if es == [] then (s, [])
    else
      match Step(s, es[0])
      case Invalid => Run(s, es[1..])
      case Valid(next, actions) =>
        var rest := Run(next, es[1..]);
        (rest.0, actions + rest.1)
  }

  /** The entry actions that mark progress of the protocol. */
  predicate IsMilestone(a: Action) {
    || a == OnEntryBalance(InHandshake) || a == OnEntryBalance(OutHandshake)
    || a.OnEntryPhase? || a.OnEntryNormal? || a.OnEntrySafeMode?
  }

  function Keep(a: Action): seq<Action> { if IsMilestone(a) then [a] else [] }

  function Milestones(actions: seq<Action>): seq<Action> {
    if actions == [] then [] else Keep(actions[0]) + Milestones(actions[1..])
  }

  lemma {:induction false} MilestonesAppend(a: seq<Action>, b: seq<Action>)
    ensures Milestones(a + b) == Milestones(a) + Milestones(b)
  {
    if a == [] {
      assert a + b == b;
    } else {
      assert (a + b)[0] == a[0] && (a + b)[1..] == a[1..] + b;
      MilestonesAppend(a[1..], b);
    }
  }

  /** The milestones of a run that has not visited safe mode, by the mode it stands in. */
  function Route(m: Mode): seq<Action> {
    match m
    case Booting | AwaitingEpoch | Safe => []
    case HandshakeIn | CheckIn | RepeatIn => FULL_ROUTE[..1]
    case AlertPhase => FULL_ROUTE[..2]
    case DataPhase => FULL_ROUTE[..3]
    case MonitorPhase => FULL_ROUTE[..4]
    case HandshakeOut | CheckOut | RepeatOut => FULL_ROUTE[..5]
    case Steady => FULL_ROUTE
  }

  const FULL_ROUTE: seq<Action> :=
    [OnEntryBalance(InHandshake), OnEntryPhase(Alert), OnEntryPhase(Data),
     OnEntryPhase(Monitor), OnEntryBalance(OutHandshake), OnEntryNormal]

  /** Safe mode is entered without an epoch, or when attempts ran out in the first or last handshake. */
  predicate EndsInSafeMode(h: seq<Action>) {
    || h == [OnEntrySafeMode]
    || h == Route(HandshakeIn) + [OnEntrySafeMode]
    || h == Route(HandshakeOut) + [OnEntrySafeMode]
  }

  /** The milestones a run may have passed when it stands in mode `m`. */
  predicate Consistent(h: seq<Action>, m: Mode) {
    match m
    case Safe => EndsInSafeMode(h)
    case Steady => h == Route(Steady) || (h != [] && h[|h| - 1].OnEntryNormal? && EndsInSafeMode(h[..|h| - 1]))
    case _ => h == Route(m)
  }

  /** The milestone an arrow adds. */
  function Gained(m: Mode, to: Mode): seq<Action> {
    if m == to then []
    else
      match to
      case HandshakeIn => [OnEntryBalance(InHandshake)]
      case HandshakeOut => [OnEntryBalance(OutHandshake)]
      case AlertPhase => [OnEntryPhase(Alert)]
      case DataPhase => [OnEntryPhase(Data)]
      case MonitorPhase => [OnEntryPhase(Monitor)]
      case Safe => [OnEntrySafeMode]
      case Steady => [OnEntryNormal]
      case _ => []
  }

  function KeepAt(acts: seq<Action>, i: nat): seq<Action> { if i < |acts| then Keep(acts[i]) else [] }

  lemma {:induction false} ShortList(acts: seq<Action>)
    requires |acts| <= 3
    ensures Milestones(acts) == KeepAt(acts, 0) + KeepAt(acts, 1) + KeepAt(acts, 2)
    decreases |acts|
  {
    if acts != [] {
      ShortList(acts[1..]);
    }
  }

  lemma EmittedIsShort(m: Mode, e: Event, to: Mode)
    requires m != to || to in {HandshakeIn, RepeatIn, HandshakeOut, RepeatOut}
    ensures |Emitted(m, e, to)| <= 3
    ensures var acts := Emitted(m, e, to);
            KeepAt(acts, 0) + KeepAt(acts, 1) + KeepAt(acts, 2) == Gained(m, to)
  {
    match to {
      case Booting =>
      case AwaitingEpoch =>
      case HandshakeIn =>
      case HandshakeOut =>
      case CheckIn =>
      case CheckOut =>
      case RepeatIn =>
      case RepeatOut =>
      case AlertPhase =>
      case DataPhase =>
      case MonitorPhase =>
      case Safe =>
      case Steady =>
    }
  }

  lemma GainedIsRight(m: Mode, e: Event)
    requires Target(m, e).Some?
    ensures Milestones(Emitted(m, e, Target(m, e).value)) == Gained(m, Target(m, e).value)
  {
    EmittedIsShort(m, e, Target(m, e).value);
    ShortList(Emitted(m, e, Target(m, e).value));
  }

  lemma OneArrow(h: seq<Action>, m: Mode, e: Event)
    requires Consistent(h, m) && Target(m, e).Some?
    ensures Consistent(h + Milestones(Emitted(m, e, Target(m, e).value)), Target(m, e).value)
  {
    GainedIsRight(m, e);
    var to := Target(m, e).value;
    hide Emitted, Milestones;
    if to == Steady {
      ArrowToSteady(h, m, e);
    } else if to == Safe {
      ArrowToSafe(h, m, e);
    } else {
      ArrowOnTheRoute(m, e, to);
    }
  }

  lemma ArrowOnTheRoute(m: Mode, e: Event, to: Mode)
    requires Target(m, e) == Some(to) && to != Steady && to != Safe
    ensures m != Steady && m != Safe && Route(m) + Gained(m, to) == Route(to)
  {
    if m == to {
      assert Route(m) + [] == Route(to);
    } else if to in {AwaitingEpoch, CheckIn, RepeatIn, CheckOut, RepeatOut} {
      assert Route(m) == Route(to);
    } else {
      hide Target;
    }
  }

  lemma ArrowToSafe(h: seq<Action>, m: Mode, e: Event)
    requires Consistent(h, m) && Target(m, e) == Some(Safe)
    ensures EndsInSafeMode(h + Gained(m, Safe))
  {
    assert m in {AwaitingEpoch, CheckIn, CheckOut};
    hide Target;
  }

  lemma ArrowToSteady(h: seq<Action>, m: Mode, e: Event)
    requires Consistent(h, m) && Target(m, e) == Some(Steady)
    ensures Consistent(h + Gained(m, Steady), Steady)
  {
    assert m in {HandshakeOut, CheckOut, RepeatOut, Safe};
    hide Target;
    assert Gained(m, Steady) == [OnEntryNormal];
    assert (h + [OnEntryNormal])[..|h|] == h;
    if m != Safe {
      assert h + [OnEntryNormal] == FULL_ROUTE;
    }
  }

  lemma OneStep(s: FsmState, e: Event, h: seq<Action>)
    requires WellFormed(s) && Consistent(h, ModeOf(s)) && Step(s, e).Valid?
    ensures WellFormed(Step(s, e).next)
    ensures Consistent(h + Milestones(Step(s, e).actions), ModeOf(Step(s, e).next))
  {
    hide Step, Consistent;
    StepIsFlat(s, e);
    OneArrow(h, ModeOf(s), e);
  }

  /** Main invariant of runs: whatever the events, the milestones passed fit the mode reached. */
  lemma {:induction false} RunsFollowTheRoute(s: FsmState, es: seq<Event>, h: seq<Action>)
    requires WellFormed(s) && Consistent(h, ModeOf(s))
    ensures WellFormed(Run(s, es).0)
    ensures Consistent(h + Milestones(Run(s, es).1), ModeOf(Run(s, es).0))
    decreases |es|
  {
    hide Step, Consistent;
    if es == [] {
      assert h + Milestones([]) == h;
    } else {
      match Step(s, es[0]) {
        case Invalid => RunsFollowTheRoute(s, es[1..], h);
        case Valid(next, actions) =>
          OneStep(s, es[0], h);
          RunsFollowTheRoute(next, es[1..], h + Milestones(actions));
          MilestonesAppend(actions, Run(next, es[1..]).1);
          assert h + Milestones(actions) + Milestones(Run(next, es[1..]).1)
              == h + (Milestones(actions) + Milestones(Run(next, es[1..]).1));
      }
    }
  }

  /** What a run to Normal that visited safe mode has passed: no milestone, the first, or the first five,
      then safe mode and Normal. */
  predicate SafeDetour(h: seq<Action>) {
    || h == [OnEntrySafeMode, OnEntryNormal]
    || h == FULL_ROUTE[..1] + [OnEntrySafeMode, OnEntryNormal]
    || h == FULL_ROUTE[..5] + [OnEntrySafeMode, OnEntryNormal]
  }

  /** From power-on, under every event list: the hierarchy is well formed; a run that reaches Normal
      without safe mode has entered InHandshake, Alert, Data, Monitor and OutHandshake exactly once
      and in this order; one that reaches it through safe mode has entered none of them, the first, or
      all five, then safe mode and Normal, and nothing else. */
  lemma NormalMeansFullProtocol(es: seq<Event>)
    ensures WellFormed(Run(NewFsm(), es).0)
    ensures var (s, actions) := Run(NewFsm(), es);
            s.global.Normal? ==>
              if OnEntrySafeMode in Milestones(actions) then SafeDetour(Milestones(actions))
              else Milestones(actions) == FULL_ROUTE
  {
    RunsFollowTheRoute(NewFsm(), es, []);
    var h := Milestones(Run(NewFsm(), es).1);
    assert [] + h == h;
    hide Run, Milestones;
    if Run(NewFsm(), es).0.global.Normal? {
      NormalHistory(h);
    }
  }

  lemma NormalHistory(h: seq<Action>)
    requires Consistent(h, Steady)
    ensures if OnEntrySafeMode in h then SafeDetour(h) else h == FULL_ROUTE
  {
    if h != Route(Steady) {
      var before := h[..|h| - 1];
      assert h == before + [OnEntryNormal];
      assert before[|before| - 1] == OnEntrySafeMode;
      assert h[|h| - 2] == OnEntrySafeMode;
      assert before == before[..|before| - 1] + [OnEntrySafeMode];
    }
  }

  ghost predicate Distinct(h: seq<Action>) { forall i, j :: 0 <= i < j < |h| ==> h[i] != h[j] }

  lemma {:induction false} DistinctCount(a: Action, h: seq<Action>)
    requires Distinct(h)
    ensures multiset(h)[a] <= 1
  {
    if h != [] {
      assert h == [h[0]] + h[1..];
      assert h[0] !in h[1..];
      DistinctCount(a, h[1..]);
    }
  }

  /** Each handshake, each phase and each final state is entered at most once in a run. */
  lemma FullRouteDistinct()
    ensures Distinct(FULL_ROUTE)
  {
  }

  lemma PrefixThenFinal(k: nat, tail: seq<Action>)
    requires k <= 5 && tail in {[], [OnEntrySafeMode], [OnEntrySafeMode, OnEntryNormal]}
    ensures Distinct(FULL_ROUTE[..k] + tail)
  {
    FullRouteDistinct();
  }

  lemma ConsistentIsDistinct(h: seq<Action>, m: Mode)
    requires Consistent(h, m)
    ensures Distinct(h)
  {
    hide Distinct;
    FullRouteDistinct();
    if EndsInSafeMode(h) {
      SafeEndIsDistinct(h, []);
      assert h + [] == h;
    } else if m == Steady && h != FULL_ROUTE {
      SafeEndIsDistinct(h[..|h| - 1], [OnEntryNormal]);
      assert h == h[..|h| - 1] + [OnEntryNormal];
    } else if m != Steady {
      var k := |Route(m)|;
      PrefixThenFinal(k, []);
      assert h == FULL_ROUTE[..k] + [];
    }
  }

  lemma SafeEndIsDistinct(h: seq<Action>, tail: seq<Action>)
    requires EndsInSafeMode(h) && tail in {[], [OnEntryNormal]}
    ensures Distinct(h + tail)
  {
    hide Distinct;
    var k := |h| - 1;
    assert [OnEntrySafeMode] + tail == if tail == [] then [OnEntrySafeMode] else [OnEntrySafeMode, OnEntryNormal];
    PrefixThenFinal(k, [OnEntrySafeMode] + tail);
    assert h + tail == FULL_ROUTE[..k] + ([OnEntrySafeMode] + tail);
  }

  lemma MilestonesDiffer(es: seq<Event>)
    ensures Distinct(Milestones(Run(NewFsm(), es).1))
  {
    RunsFollowTheRoute(NewFsm(), es, []);
    var h := Milestones(Run(NewFsm(), es).1);
    assert [] + h == h;
    ConsistentIsDistinct(h, ModeOf(Run(NewFsm(), es).0));
  }

  lemma {:induction false} FilterKeepsCount(a: Action, actions: seq<Action>)
    requires IsMilestone(a)
    ensures multiset(Milestones(actions))[a] == multiset(actions)[a]
  {
    if actions != [] {
      assert actions == [actions[0]] + actions[1..];
      FilterKeepsCount(a, actions[1..]);
    }
  }

  /** In particular every `OnEntryPhase` action is emitted at most once per run. */
  lemma PhaseEntriesAtMostOnce(es: seq<Event>, p: SubStatePhase)
    ensures multiset(Run(NewFsm(), es).1)[OnEntryPhase(p)] <= 1
  {
    MilestonesDiffer(es);
    DistinctCount(OnEntryPhase(p), Milestones(Run(NewFsm(), es).1));
    FilterKeepsCount(OnEntryPhase(p), Run(NewFsm(), es).1);
  }

  /** Position of a mode on the protocol's one-way road. */
  function Stage(m: Mode): nat {
    match m
    case Booting => 0
    case AwaitingEpoch => 1
    case HandshakeIn | CheckIn | RepeatIn => 2
    case AlertPhase => 3
    case DataPhase => 4
    case MonitorPhase => 5
    case HandshakeOut | CheckOut | RepeatOut => 6
    case Safe => 7
    case Steady => 8
  }

  /** No run ever moves back a stage, and Normal is never left. */
  lemma {:induction false} StagesOnlyGrow(s: FsmState, es: seq<Event>)
    requires WellFormed(s)
    ensures WellFormed(Run(s, es).0)
    ensures Stage(ModeOf(s)) <= Stage(ModeOf(Run(s, es).0))
    ensures s.global.Normal? ==> Run(s, es) == (s, [])
    decreases |es|
  {
    if es != [] {
      OneStepGrows(s, es[0]);
      hide Step, ModeOf, Stage, WellFormed;
      match Step(s, es[0]) {
        case Invalid => StagesOnlyGrow(s, es[1..]);
        case Valid(next, _) => StagesOnlyGrow(next, es[1..]);
      }
    }
  }

  lemma OneStepGrows(s: FsmState, e: Event)
    requires WellFormed(s)
    ensures match Step(s, e)
            case Invalid => true
            case Valid(next, _) => WellFormed(next) && !s.global.Normal? && Stage(ModeOf(s)) <= Stage(ModeOf(next))
  {
    StepIsFlat(s, e);
    hide Step, WellFormed;
    assert s.global.Normal? ==> ModeOf(s) == Steady;
    if Target(ModeOf(s), e).Some? {
      TargetGrows(ModeOf(s), e);
    }
    hide Target, Emitted, Stage, ModeOf;
  }

  lemma TargetGrows(m: Mode, e: Event)
    requires Target(m, e).Some?
    ensures m != Steady && Stage(m) <= Stage(Target(m, e).value)
  {
  }
}
