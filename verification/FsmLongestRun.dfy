/** The bound of `FsmRtcTheorems.Termination` is exact: for every configuration some run-to-completion run
    has that many watchdog expiries. The run is built by a plan: a single hub votes once, in the last
    opening round that can still be approved, and too few votes are counted everywhere else. */
module FsmLongestRun {
  import opened Common
  import opened FsmDomain
  import opened FsmTask
  import opened Watchdog
  import opened FsmSystem
  import opened FsmAsync
  import opened FsmDrain
  import opened FsmRtc
  import opened FsmRtcTheorems

  predicate Opening(m: Mode) { m == HandshakeIn || m == RepeatIn }

  /** The event the plan lets a mode read, after `n` repeat rounds and with `v` votes. */
  predicate Foreseen(m: Mode, n: nat, e: Event, v: nat, maxAttempts: nat) {
    match m
    case AwaitingEpoch => e.BalanceEpochOk?
    case HandshakeIn | RepeatIn =>
      e.NewMessageHandshake? || e.NotApproveQuorum? || (e.Timeout? && (n == LastChance(maxAttempts) ==> v == 1))
    case CheckIn => if n == LastChance(maxAttempts) then e.ApproveQuorum? else e.NotApproveQuorum?
    case CheckOut => if n <= maxAttempts then e.NotApproveQuorum? else e.NotApproveNotAttempts?
    case Booting | Steady => false
    case _ => e.Timeout?
  }

  ghost predicate Planned(m: Mode, n: nat, es: seq<Event>, o: seq<Action>, v: nat, maxAttempts: nat) {
    && v <= 1
    && (Opening(m) || m == CheckIn ==> n <= LastChance(maxAttempts))
    && (o != [] && o[0] == CalculateQuorum ==> Opening(m))
    && (m == CheckIn && o != [] && n == LastChance(maxAttempts) ==> v == 1)
    && (es != [] && m != Steady ==> Foreseen(m, n, es[0], v, maxAttempts))
  }

  ghost predicate OnPlan(s: Sys, maxAttempts: nat) {
    && RtcInv(s, maxAttempts)
    && Planned(ModeOf(s.fsm), s.h.repeats, s.task.toFsm, Outstanding(s), |s.task.session.handshake|, maxAttempts)
  }

  /** The hub count when votes are counted. */
  function PlannedTotal(m: Mode, n: nat, maxAttempts: nat): nat {
    if m == CheckIn && n == LastChance(maxAttempts) then 1 else 1000
  }

  function Internally(s: Sys, maxAttempts: nat): Label
    requires WellFormed(s.fsm)
  {
    if s.task.toFsm != [] then RunFsm
    else if s.pending != [] then DoAction(PlannedTotal(ModeOf(s.fsm), s.h.repeats, maxAttempts))
    else if s.actions != [] then TakeVector
    else if s.task.toTimer != [] then WatchdogReceives
    else if s.task.toHeartbeat != [] then GeneratorObeys
    else if s.generator.toTimer != [] then BeatTimerReceives
    else GeneratorBeats
  }

  function Plan(s: Sys, maxAttempts: nat): Label
    requires WellFormed(s.fsm)
  {
    if !IsQuiet(s) then Internally(s, maxAttempts)
    else if ModeOf(s.fsm) == AwaitingEpoch then Label.Receive(Epoch(0), 0)
    else if Opening(ModeOf(s.fsm)) && s.h.repeats == LastChance(maxAttempts) && s.task.session.handshake == map[]
    then Label.Receive(FromHub(HandshakeFromHub("hub", s.task.epoch)), 0)
    else TimerFires
  }

  /** Receptions the plan still has to make before the next expiry. */
  function Urge(m: Mode, es: seq<Event>, o: seq<Action>, v: nat): nat {
    match m
    case AwaitingEpoch => if es == [] then 3 else 2
    case CheckIn => 2
    case HandshakeIn | RepeatIn =>
      if es == [Timeout] then 3 else if v == 0 || o == [OnEntryQuorum(RepeatHandshakeIn)] then 1 else 0
    case _ => 0
  }

  function UrgeOf(s: Sys): nat
    requires WellFormed(s.fsm)
  {
    Urge(ModeOf(s.fsm), s.task.toFsm, Outstanding(s), |s.task.session.handshake|)
  }

  // --- one step, on values -----------------------------------------------------------------------------

  /** Reading a foreseen event follows an arrow that wastes nothing. */
  lemma PlannedArrow(m: Mode, n: nat, e: Event, v: nat, maxAttempts: nat)
    requires Planned(m, n, [e], [], v, maxAttempts) && Foreseen(m, n, e, v, maxAttempts) && Tries(m, n, maxAttempts)
    ensures Target(m, e).Some?
    ensures var to := Target(m, e).value;
            && Potential(to, RepeatsAfter(m, to, n), maxAttempts) + (if e.Timeout? then 1 else 0) == Potential(m, n, maxAttempts)
            && Planned(to, RepeatsAfter(m, to, n), [], Emitted(m, e, to), v, maxAttempts)
            && Urge(to, [], Emitted(m, e, to), v) <= Urge(m, [e], [], v)
  {
  }

  /** What the plan's hub counts make of a count. */
  lemma PlannedVerdict(m: Mode, n: nat, v: nat, maxAttempts: nat)
    requires v <= 1 && (m == CheckIn && n == LastChance(maxAttempts) ==> v == 1)
    ensures var e := Verdict(v, n, maxAttempts, PlannedTotal(m, n, maxAttempts));
            if m == CheckIn && n == LastChance(maxAttempts) then e.ApproveQuorum?
            else if n <= maxAttempts then e.NotApproveQuorum? else e.NotApproveNotAttempts?
  {
  }

  lemma PlannedAction(m: Mode, n: nat, o: seq<Action>, v: nat, v': nat, es: seq<Event>, maxAttempts: nat)
    requires Planned(m, n, [], o, v, maxAttempts) && o != [] && WorkOf(m, o)
    requires v' == if o[0].OnEntryPhase? || o[0] == OnEntryQuorum(RepeatHandshakeIn) || o[0] == OnEntryQuorum(RepeatHandshakeOut)
                   then 0 else v
    requires es == if CountsVotes(o[0]) then [Verdict(v, n, maxAttempts, PlannedTotal(m, n, maxAttempts))] else []
    ensures Planned(m, n, es, o[1..], v', maxAttempts)
    ensures Urge(m, es, o[1..], v') <= Urge(m, [], o, v)
  {
    PlannedVerdict(m, n, v, maxAttempts);
    hide Verdict;
  }

  // --- one step of the system ---------------------------------------------------------------------------

  /** The step keeps to the plan, burns fuel only for an expiry, and comes closer to the next one. */
  ghost predicate Advanced(s: Sys, l: Label, maxAttempts: nat)
    requires WellFormed(s.fsm)
  {
    && RtcEnabled(s, l)
    && OnPlan(Apply(s, l, maxAttempts), maxAttempts)
    && var s' := Apply(s, l, maxAttempts);
       && Fuel(s', maxAttempts) + (if l.TimerFires? then 1 else 0) == Fuel(s, maxAttempts)
       && (!l.TimerFires? ==> UrgeOf(s') <= UrgeOf(s) && (External(l) ==> UrgeOf(s') < UrgeOf(s)))
  }

  /** What the plan looks at. */
  ghost predicate SameView(s: Sys, s': Sys) {
    && s'.fsm == s.fsm && s'.h.repeats == s.h.repeats && s'.task.toFsm == s.task.toFsm
    && Outstanding(s') == Outstanding(s) && s'.task.session == s.task.session
  }

  lemma SilentStep(s: Sys, l: Label, maxAttempts: nat)
    requires OnPlan(s, maxAttempts) && RtcEnabled(s, l)
    requires l in {TakeVector, WatchdogReceives, GeneratorObeys, BeatTimerReceives, GeneratorBeats}
    ensures WellFormed(s.fsm) && Advanced(s, l, maxAttempts)
  {
    hide RtcInv, Planned, Potential, Urge;
    RtcWellFormed(s, maxAttempts);
    RtcKept(s, l, maxAttempts);
    OutstandingAfter(s, l, maxAttempts);
    assert SameView(s, Apply(s, l, maxAttempts));
  }

  lemma MachineStep(s: Sys, maxAttempts: nat)
    requires OnPlan(s, maxAttempts) && s.task.toFsm != [] && WellFormed(s.fsm) && ModeOf(s.fsm) != Steady
    ensures Advanced(s, RunFsm, maxAttempts)
  {
    hide RtcInv, Step, Potential, CountRepeats, Foreseen, Urge, Emitted, Target, Tries;
    RtcKept(s, RunFsm, maxAttempts);
    RtcEventFacts(s, maxAttempts);
    EventsStandAlone(s, maxAttempts);
    var e, m, n, v := s.task.toFsm[0], ModeOf(s.fsm), s.h.repeats, |s.task.session.handshake|;
    var s' := ApplyRunFsm(s);
    StepIsFlat(s.fsm, e);
    PlannedArrow(m, n, e, v, maxAttempts);
    ModesCountRepeats(s.fsm, s'.fsm, n);
    OutstandingAfter(s, RunFsm, maxAttempts);
    assert s'.task.toFsm == [] && Outstanding(s') == Emitted(m, e, ModeOf(s'.fsm));
    hide Planned;
  }

  lemma EventsStandAlone(s: Sys, maxAttempts: nat)
    requires RtcInv(s, maxAttempts) && s.task.toFsm != []
    ensures s.task.toFsm == [s.task.toFsm[0]] && Outstanding(s) == []
  {
    LinearFacts(s);
  }

  lemma WorkFacts(s: Sys, maxAttempts: nat)
    requires RtcInv(s, maxAttempts) && s.pending != []
    ensures WellFormed(s.fsm) && WorkOf(ModeOf(s.fsm), Outstanding(s)) && s.task.toFsm == []
    ensures Outstanding(s)[0] == s.pending[0]
    ensures CountsVotes(s.pending[0]) ==> s.task.session.attempts == s.h.repeats
  {
    hide TimerInv, BeatInv, VotesInv, Evidence, Tries;
    NoTimeoutAmidWork(s, maxAttempts);
    if CountsVotes(s.pending[0]) {
      CountingKeepsAttempts(s, ModeOf(s.fsm), Outstanding(s));
    }
  }

  lemma ActionStep(s: Sys, maxAttempts: nat)
    requires OnPlan(s, maxAttempts) && s.task.toFsm == [] && s.pending != [] && WellFormed(s.fsm)
    ensures Advanced(s, DoAction(PlannedTotal(ModeOf(s.fsm), s.h.repeats, maxAttempts)), maxAttempts)
  {
    hide RtcInv, Planned, Potential, Urge, HandleAction, Verdict, PlannedTotal, WorkOf;
    var m, n := ModeOf(s.fsm), s.h.repeats;
    var total := PlannedTotal(m, n, maxAttempts);
    var l := DoAction(total);
    var a := s.pending[0];
    var s' := Apply(s, l, maxAttempts);
    RtcKept(s, l, maxAttempts);
    WorkFacts(s, maxAttempts);
    OutstandingAfter(s, l, maxAttempts);
    ActionSends(s.task, a, maxAttempts, total);
    SessionAfterIs(s.task, a, maxAttempts, total);
    assert Outstanding(s)[1..] == Outstanding(s');
    VerdictsAreVerdicts(|s.task.session.handshake|, n, maxAttempts, total);
    PlannedAction(m, n, Outstanding(s), |s.task.session.handshake|, |s'.task.session.handshake|, s'.task.toFsm, maxAttempts);
  }

  lemma EpochStep(s: Sys, maxAttempts: nat)
    requires OnPlan(s, maxAttempts) && IsQuiet(s) && WellFormed(s.fsm) && ModeOf(s.fsm) == AwaitingEpoch
    ensures Advanced(s, Label.Receive(Epoch(0), 0), maxAttempts)
  {
    hide RtcInv, Potential;
    var s' := Apply(s, Label.Receive(Epoch(0), 0), maxAttempts);
    RtcKept(s, Label.Receive(Epoch(0), 0), maxAttempts);
    assert s'.task.toFsm == [BalanceEpochOk] && Outstanding(s') == Outstanding(s);
  }

  lemma VoteStep(s: Sys, maxAttempts: nat)
    requires OnPlan(s, maxAttempts) && IsQuiet(s) && WellFormed(s.fsm) && Opening(ModeOf(s.fsm))
    requires s.task.session.handshake == map[]
    ensures Advanced(s, Label.Receive(FromHub(HandshakeFromHub("hub", s.task.epoch)), 0), maxAttempts)
  {
    hide RtcInv, Potential;
    RtcKept(s, Label.Receive(FromHub(HandshakeFromHub("hub", s.task.epoch)), 0), maxAttempts);
    QuietFacts(s, maxAttempts);
    var s' := Apply(s, Label.Receive(FromHub(HandshakeFromHub("hub", s.task.epoch)), 0), maxAttempts);
    assert s'.task.toFsm == [NewMessageHandshake] && Outstanding(s') == Outstanding(s) == [];
    assert s'.task.session.handshake == map["hub" := s.task.epoch];
  }

  lemma ExpiryStep(s: Sys, maxAttempts: nat)
    requires OnPlan(s, maxAttempts) && IsQuiet(s) && WellFormed(s.fsm) && ModeOf(s.fsm) !in {AwaitingEpoch, Steady}
    requires Opening(ModeOf(s.fsm)) && s.h.repeats == LastChance(maxAttempts) ==> s.task.session.handshake != map[]
    ensures Advanced(s, TimerFires, maxAttempts)
  {
    hide RtcInv, Potential;
    QuietFacts(s, maxAttempts);
    RtcKept(s, TimerFires, maxAttempts);
    assert s.task.session.handshake != map[] ==> |s.task.session.handshake| > 0;
  }

  lemma InternalStep(s: Sys, maxAttempts: nat)
    requires OnPlan(s, maxAttempts) && !IsQuiet(s) && WellFormed(s.fsm) && ModeOf(s.fsm) != Steady
    ensures var l := Internally(s, maxAttempts); !External(l) && Advanced(s, l, maxAttempts)
  {
    hide RtcInv, Planned, Apply;
    if s.task.toFsm != [] {
      MachineStep(s, maxAttempts);
    } else if s.pending != [] {
      ActionStep(s, maxAttempts);
    } else {
      WatchdogsListen(s, maxAttempts);
      SilentStep(s, Internally(s, maxAttempts), maxAttempts);
    }
  }

  lemma WatchdogsListen(s: Sys, maxAttempts: nat)
    requires RtcInv(s, maxAttempts)
    ensures Listens(s.timer) && Listens(s.beatTimer)
  {
    hide Linear, VotesInv, Evidence, Tries;
  }

  lemma PlanAdvances(s: Sys, maxAttempts: nat)
    requires OnPlan(s, maxAttempts) && WellFormed(s.fsm) && ModeOf(s.fsm) != Steady
    ensures Advanced(s, Plan(s, maxAttempts), maxAttempts)
  {
    hide RtcInv, Planned, Apply, Advanced;
    if !IsQuiet(s) {
      InternalStep(s, maxAttempts);
    } else if ModeOf(s.fsm) == AwaitingEpoch {
      EpochStep(s, maxAttempts);
    } else if Opening(ModeOf(s.fsm)) && s.h.repeats == LastChance(maxAttempts) && s.task.session.handshake == map[] {
      VoteStep(s, maxAttempts);
    } else {
      ExpiryStep(s, maxAttempts);
    }
  }

  /** From any state on the plan, a run burns all the fuel there is. */
  lemma {:induction false} BurnAll(s: Sys, maxAttempts: nat) returns (ls: seq<Label>)
    requires OnPlan(s, maxAttempts) && WellFormed(s.fsm)
    ensures RtcSchedule(s, ls, maxAttempts) && Expiries(ls) == Fuel(s, maxAttempts)
    decreases Fuel(s, maxAttempts), UrgeOf(s), Weight(s)
  {
    hide RtcInv, Planned, Apply, Enabled, IsQuiet, Weight, Urge, Potential;
    FuelIsNatural(s, maxAttempts);
    if Fuel(s, maxAttempts) == 0 {
      ls := [];
    } else {
      FuelMeansUnfinished(s, maxAttempts);
      var l := Plan(s, maxAttempts);
      PlanAdvances(s, maxAttempts);
      var s' := Apply(s, l, maxAttempts);
      RtcWellFormed(s', maxAttempts);
      FuelIsNatural(s', maxAttempts);
      if !External(l) {
        StepsUseWeight(s, l, maxAttempts);
      }
      var rest := BurnAll(s', maxAttempts);
      ls := [l] + rest;
      assert ls[1..] == rest;
    }
  }

  lemma FuelMeansUnfinished(s: Sys, maxAttempts: nat)
    requires WellFormed(s.fsm) && Fuel(s, maxAttempts) > 0
    ensures ModeOf(s.fsm) != Steady
  {
  }

  /** For every configuration there is a run with exactly as many watchdog expiries as the bound allows. */
  lemma TheBoundIsReached(maxAttempts: nat)
    ensures exists ls :: RtcSchedule(Init(), ls, maxAttempts) && Expiries(ls) == maxAttempts + LastChance(maxAttempts) + 7
  {
    hide RtcInv;
    RtcInit(maxAttempts);
    assert Outstanding(Init()) == [OnEntryBalance(InitBalanceMode)] by {
      assert Init().actions[1..] == [];
      assert Flatten(Init().actions) == Init().actions[0] + Flatten<Action>([]);
    }
    var ls := BurnAll(Init(), maxAttempts);
  }
}
