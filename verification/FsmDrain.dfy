/** No livelock: the event/action feedback between `run_fsm` and the `fsm` task always dies out when the
    environment is silent. */
module FsmDrain {
  import opened Common
  import opened FsmDomain
  import opened FsmTask
  import opened FsmSystem

  /** Bounds on the internal steps an item in a channel can still cause. */
  function EventWeight(e: Event): nat {
    if e.ApproveQuorum? || e.NotApproveQuorum? || e.NotApproveNotAttempts? then 9 else 13
  }

  function ActionWeight(a: Action): nat {
    match a
    case OnEntryBalance(b) => if b.InHandshake? || b.OutHandshake? then 2 else 1
    case OnEntryQuorum(q) => if q.CheckQuorumIn? || q.CheckQuorumOut? then 10 else 2
    case CalculateQuorum => 10
    case OnEntryPhase(p) => if p.Alert? then 4 else 2
    case OnEntryNormal | StopSendHeartbeatMessagePhase | StopSendHeartbeatMessageSafeMode => 3
    case OnEntrySafeMode => 4
    case StopTimer => 2
    case _ => 1
  }

  function EventsWeight(es: seq<Event>): nat {
    if es == [] then 0 else EventWeight(es[0]) + EventsWeight(es[1..])
  }

  function VectorWeight(acts: seq<Action>): nat {
    if acts == [] then 0 else ActionWeight(acts[0]) + VectorWeight(acts[1..])
  }

  function VectorsWeight(vs: seq<seq<Action>>): nat {
    if vs == [] then 0 else 1 + VectorWeight(vs[0]) + VectorsWeight(vs[1..])
  }

  function Weight(s: Sys): nat {
    EventsWeight(s.task.toFsm) + VectorsWeight(s.actions) + VectorWeight(s.pending)
    + |s.task.toTimer| + 2 * |s.task.toHeartbeat| + |s.generator.toTimer| + 2 * s.beatEvents
  }

  lemma {:induction false} EventsWeightAppend(a: seq<Event>, b: seq<Event>)
    ensures EventsWeight(a + b) == EventsWeight(a) + EventsWeight(b)
  {
    if a == [] {
      assert a + b == b;
    } else {
      assert (a + b)[0] == a[0] && (a + b)[1..] == a[1..] + b;
      EventsWeightAppend(a[1..], b);
    }
  }

  lemma {:induction false} VectorsWeightAppend(a: seq<seq<Action>>, v: seq<Action>)
    ensures VectorsWeight(a + [v]) == VectorsWeight(a) + 1 + VectorWeight(v)
  {
    if a == [] {
      assert a + [v] == [v];
      assert [v][1..] == [];
    } else {
      assert (a + [v])[0] == a[0] && (a + [v])[1..] == a[1..] + [v];
      VectorsWeightAppend(a[1..], v);
    }
  }

  function WeightAt(acts: seq<Action>, i: nat): nat { if i < |acts| then ActionWeight(acts[i]) else 0 }

  lemma {:induction false} ShortVector(acts: seq<Action>)
    requires |acts| <= 3
    ensures VectorWeight(acts) == WeightAt(acts, 0) + WeightAt(acts, 1) + WeightAt(acts, 2)
    decreases |acts|
  {
    if acts != [] {
      ShortVector(acts[1..]);
    }
  }

  /** One transition emits less than it consumes. */
  lemma EmissionIsLighter(m: Mode, e: Event, to: Mode)
    requires Target(m, e) == Some(to)
    ensures 1 + VectorWeight(Emitted(m, e, to)) < EventWeight(e)
  {
    ShortVector(Emitted(m, e, to));
    EmittedIsLight(m, e, to);
  }

  lemma EmittedIsLight(m: Mode, e: Event, to: Mode)
    requires Target(m, e) == Some(to)
    ensures var acts := Emitted(m, e, to);
            |acts| <= 3 && 1 + WeightAt(acts, 0) + WeightAt(acts, 1) + WeightAt(acts, 2) < EventWeight(e)
  {
    assert EventWeight(e) == 9 ==> to !in {AwaitingEpoch, CheckIn, CheckOut} && (to == HandshakeOut ==> m == to);
    hide Target;
    match to {
      case Booting =>
      case AwaitingEpoch =>
      case HandshakeIn =>
      case CheckIn =>
      case RepeatIn =>
      case AlertPhase =>
      case DataPhase =>
      case MonitorPhase =>
      case HandshakeOut =>
      case CheckOut =>
      case RepeatOut =>
      case Safe =>
      case Steady =>
    }
  }

  lemma VerdictWeighs(votes: nat, attempts: nat, maxAttempts: nat, total: nat)
    ensures EventsWeight([Verdict(votes, attempts, maxAttempts, total)]) == 9
  {
    assert [Verdict(votes, attempts, maxAttempts, total)][1..] == [];
  }

  /** Every internal step of every task uses up weight. */
  lemma StepsUseWeight(s: Sys, l: Label, maxAttempts: nat)
    requires WellFormed(s.fsm) && Enabled(s, l) && !External(l)
    ensures WellFormed(Apply(s, l, maxAttempts).fsm)
    ensures Weight(Apply(s, l, maxAttempts)) < Weight(s)
  {
    hide Step, HandleAction, ActionWeight, Verdict, Emitted;
    var s' := Apply(s, l, maxAttempts);
    match l {
      case RunFsm =>
        var e := s.task.toFsm[0];
        StepIsFlat(s.fsm, e);
        if Step(s.fsm, e).Valid? {
          EmissionIsLighter(ModeOf(s.fsm), e, ModeOf(s'.fsm));
          VectorsWeightAppend(s.actions, Step(s.fsm, e).actions);
        }
      case DoAction(total) => ActionUsesWeight(s, maxAttempts, total);
      case _ =>
    }
  }

  lemma ActionUsesWeight(s: Sys, maxAttempts: nat, total: nat)
    requires s.pending != []
    ensures Weight(ApplyDoAction(s, total, maxAttempts)) < Weight(s)
  {
    hide HandleAction, Verdict;
    var a := s.pending[0];
    var t := HandleAction(s.task, a, maxAttempts, total);
    ActionSends(s.task, a, maxAttempts, total);
    VerdictWeighs(|s.task.session.handshake|, s.task.session.attempts, maxAttempts, total);
    var es := t.toFsm[|s.task.toFsm|..];
    EventsWeightAppend(s.task.toFsm, es);
    assert t.toFsm == s.task.toFsm + es;
    assert 1 + |TimerCommandsOf(a)| + 2 * |BeatActionsOf(a)| + (if CountsVotes(a) then 9 else 0) <= ActionWeight(a);
  }

  ghost predicate Internal(ls: seq<Label>) { forall l :: l in ls ==> !External(l) }

  /** With no command, timer expiry or beat expiry, any interleaving of the tasks stops after at most
      `Weight(s)` steps. */
  lemma {:induction false} SilenceDrains(s: Sys, ls: seq<Label>, maxAttempts: nat)
    requires WellFormed(s.fsm) && Schedule(s, ls, maxAttempts) && Internal(ls)
    ensures |ls| + Weight(Execute(s, ls, maxAttempts)) <= Weight(s)
    decreases |ls|
  {
    hide Enabled, Apply, Weight;
    if ls != [] {
      StepsUseWeight(s, ls[0], maxAttempts);
      SilenceDrains(Apply(s, ls[0], maxAttempts), ls[1..], maxAttempts);
    }
  }

  /** And where it stops, every channel between the tasks is empty; only commands to a deaf watchdog
      can be left, waiting for its sleep to end. */
  lemma StoppedMeansDrained(s: Sys)
    requires forall l :: !External(l) ==> !Enabled(s, l)
    ensures s.task.toFsm == [] && s.actions == [] && s.pending == [] && s.task.toHeartbeat == [] && s.beatEvents == 0
    ensures s.task.toTimer == [] || s.timer.Deaf?
    ensures s.generator.toTimer == [] || s.beatTimer.Deaf?
  {
    assert !Enabled(s, RunFsm) && !Enabled(s, DoAction(0)) && !Enabled(s, TakeVector);
    assert !Enabled(s, WatchdogReceives) && !Enabled(s, GeneratorObeys);
    assert !Enabled(s, BeatTimerReceives) && !Enabled(s, GeneratorBeats);
  }
}
