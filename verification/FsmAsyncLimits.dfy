/** A limit of asynchronous operation: without run-to-completion, a timeout that was already on its way
    ends the phase it was not meant for. */
module FsmAsyncLimits {
  import opened Common
  import opened FsmDomain
  import opened FsmTask
  import opened Watchdog
  import opened FsmSystem

  const MAX := 14

  /** `ls` leads from power-on to `s`. */
  ghost predicate Leads(ls: seq<Label>, s: Sys) { Schedule(Init(), ls, MAX) && Execute(Init(), ls, MAX) == s }

  lemma {:induction false} OneMoreStep(s0: Sys, ls: seq<Label>, l: Label)
    requires Schedule(s0, ls, MAX) && Enabled(Execute(s0, ls, MAX), l)
    ensures Schedule(s0, ls + [l], MAX) && Execute(s0, ls + [l], MAX) == Apply(Execute(s0, ls, MAX), l, MAX)
    decreases |ls|
  {
    hide Apply, Enabled;
    if ls == [] {
      assert ls + [l] == [l] && [l][1..] == [];
    } else {
      assert (ls + [l])[0] == ls[0] && (ls + [l])[1..] == ls[1..] + [l];
      OneMoreStep(Apply(s0, ls[0], MAX), ls[1..], l);
    }
  }

  lemma Then(ls: seq<Label>, s: Sys, l: Label)
    requires Leads(ls, s) && Enabled(s, l)
    ensures Leads(ls + [l], Apply(s, l, MAX))
  {
    hide Apply, Enabled, Schedule, Execute, Init;
    OneMoreStep(Init(), ls, l);
  }

  /** A state of this run: only these parts ever change in it. */
  function At(m: Mode, epoch: nat, actions: seq<seq<Action>>, pending: seq<Action>, task: Task, timer: Timer<Mode>,
              ballots: seq<Ballot>, lastTotal: nat): Sys {
    Sys(StateOf(m, epoch), actions, pending, task, timer, NEW_GENERATOR, Idle, 0, History(ballots, [], lastTotal, 0, false, 0, 0))
  }

  const ASKED := NEW_TASK.(toCore := [GetEpoch])
  const KNOWN := ASKED.(epoch := 1, toCore := [GetEpoch, NewEpoch(1)], toEdge := [BalanceMode(1)])
  const OPEN := KNOWN.(session := NEW_SESSION.(state := StateOfSession.InHandshake),
                       toCore := [GetEpoch, NewEpoch(1), HandshakeToHub(In, 1)])
  const VOTED := OPEN.(session := OPEN.session.(handshake := map["hub" := 1]))
  const BALLOT := Ballot("hub", 1, 1)
  const TO_ALERT: seq<Action> := [Action.StopTimer, OnEntryBalance(Phase), OnEntryPhase(Alert)]

  /** The run: the epoch arrives, the handshake opens, one hub of one answers and is counted, and the
      handshake timer runs out before the approval is handled. */
  const RUN: seq<Label> := [
    TakeVector, DoAction(0), Label.Receive(Epoch(0), 0), RunFsm,
    TakeVector, DoAction(0), WatchdogReceives, Label.Receive(FromHub(HandshakeFromHub("hub", 1)), 0),
    RunFsm, TakeVector, DoAction(1), TimerFires,
    RunFsm, RunFsm]

  function StateAt(i: nat): Sys
    requires i < 14
  {
    match i
    case 0 => At(AwaitingEpoch, 0, [[OnEntryBalance(InitBalanceMode)]], [], NEW_TASK, Idle, [], 0)
    case 1 => At(AwaitingEpoch, 0, [], [OnEntryBalance(InitBalanceMode)], NEW_TASK, Idle, [], 0)
    case 2 => At(AwaitingEpoch, 0, [], [], ASKED, Idle, [], 0)
    case 3 => At(AwaitingEpoch, 0, [], [], KNOWN.(toFsm := [BalanceEpochOk]), Idle, [], 0)
    case 4 => At(HandshakeIn, 0, [[OnEntryBalance(SubStateBalanceMode.InHandshake)]], [], KNOWN, Idle, [], 0)
    case 5 => At(HandshakeIn, 0, [], [OnEntryBalance(SubStateBalanceMode.InHandshake)], KNOWN, Idle, [], 0)
    case 6 => At(HandshakeIn, 0, [], [], OPEN.(toTimer := [InitTimer(HandshakeIn)]), Idle, [], 0)
    case 7 => At(HandshakeIn, 0, [], [], OPEN, Armed(HandshakeIn), [], 0)
    case 8 => At(HandshakeIn, 0, [], [], VOTED.(toFsm := [NewMessageHandshake]), Armed(HandshakeIn), [BALLOT], 0)
    case 9 => At(HandshakeIn, 0, [[CalculateQuorum]], [], VOTED, Armed(HandshakeIn), [BALLOT], 0)
    case 10 => At(HandshakeIn, 0, [], [CalculateQuorum], VOTED, Armed(HandshakeIn), [BALLOT], 0)
    case 11 => At(HandshakeIn, 0, [], [], VOTED.(toFsm := [ApproveQuorum]), Armed(HandshakeIn), [BALLOT], 1)
    case 12 => At(HandshakeIn, 0, [], [], VOTED.(toFsm := [ApproveQuorum, Timeout]), Idle, [BALLOT], 1)
    case 13 => At(AlertPhase, 0, [TO_ALERT], [], VOTED.(toFsm := [Timeout]), Idle, [BALLOT], 1)
  }

  ghost predicate StepLeads(i: nat)
    requires i < 13
  {
    Enabled(StateAt(i), RUN[i]) && Apply(StateAt(i), RUN[i], MAX) == StateAt(i + 1)
  }

  /** The machine reads one event, in the states of this run. */
  lemma ReadLeads(m: Mode, e: Event, to: Mode, rest: seq<Event>, t: Task, timer: Timer<Mode>, ballots: seq<Ballot>, total: nat)
    requires Target(m, e) == Some(to) && m in {AwaitingEpoch, HandshakeIn} && to in {HandshakeIn, AlertPhase}
    requires t.toFsm == [e] + rest
    ensures var s := At(m, 0, [], [], t, timer, ballots, total);
            && Enabled(s, RunFsm)
            && Apply(s, RunFsm, MAX) ==
               At(to, 0, [Emitted(m, e, to)], [], t.(toFsm := rest), timer, ballots, total)
  {
    var s := At(m, 0, [], [], t, timer, ballots, total);
    NextState(m, e, to);
    hide Step, Emitted, Target;
    assert t.toFsm[1..] == rest;
  }

  lemma NextState(m: Mode, e: Event, to: Mode)
    requires Target(m, e) == Some(to) && m in {AwaitingEpoch, HandshakeIn} && to in {HandshakeIn, AlertPhase}
    ensures Step(StateOf(m, 0), e) == Valid(StateOf(to, 0), Emitted(m, e, to))
  {
    ModeRoundTrip(StateOf(m, 0), m, 0);
    StepIsFlat(StateOf(m, 0), e);
    hide Emitted;
    ModeRoundTrip(Step(StateOf(m, 0), e).next, to, 0);
  }

  lemma TaskAsksForEpoch()
    ensures StepLeads(0) && StepLeads(1)
  {
    assert StateAt(0).actions[1..] == [] && StateAt(1).pending[1..] == [];
  }

  lemma EpochArrives()
    ensures StepLeads(2)
  {
    assert ASKED.toCore + [NewEpoch(1)] == KNOWN.toCore;
  }

  lemma MachineOpensTheRound()
    ensures StepLeads(3)
  {
    ReadLeads(AwaitingEpoch, BalanceEpochOk, HandshakeIn, [], KNOWN.(toFsm := [BalanceEpochOk]), Idle, [], 0);
    hide Apply, Enabled;
  }

  lemma HandshakeIsSent()
    ensures StepLeads(4) && StepLeads(5)
  {
    assert StateAt(4).actions[1..] == [] && StateAt(5).pending[1..] == [];
    assert KNOWN.toCore + [HandshakeToHub(In, 1)] == OPEN.toCore;
  }

  lemma TimerStarts()
    ensures StepLeads(6)
  {
    assert StateAt(6).task.toTimer[1..] == [];
  }

  lemma HubAnswers()
    ensures StepLeads(7)
  {
  }

  lemma CountIsTaken()
    ensures StepLeads(9)
  {
    assert StateAt(9).actions[1..] == [];
  }

  lemma MachineAsksForCount()
    ensures StepLeads(8)
  {
    ReadLeads(HandshakeIn, NewMessageHandshake, HandshakeIn, [], VOTED.(toFsm := [NewMessageHandshake]), Armed(HandshakeIn), [BALLOT], 0);
    hide Apply, Enabled;
  }

  lemma VotesAreCounted()
    ensures StepLeads(10)
  {
    assert StateAt(10).pending[1..] == [];
    assert |VOTED.session.handshake| == 1;
  }

  lemma TimerRunsOut()
    ensures StepLeads(11)
  {
    assert VOTED.toFsm + [ApproveQuorum] + [Timeout] == [ApproveQuorum, Timeout];
  }

  lemma MachineEntersAlert()
    ensures StepLeads(12)
  {
    ReadLeads(HandshakeIn, ApproveQuorum, AlertPhase, [Timeout], VOTED.(toFsm := [ApproveQuorum, Timeout]), Idle, [BALLOT], 1);
    hide Apply, Enabled;
  }

  lemma EveryStepLeads(i: nat)
    requires i < 13
    ensures StepLeads(i)
  {
    TaskAsksForEpoch();
    EpochArrives();
    MachineOpensTheRound();
    HandshakeIsSent();
    TimerStarts();
    HubAnswers();
    MachineAsksForCount();
    CountIsTaken();
    VotesAreCounted();
    TimerRunsOut();
    MachineEntersAlert();
    hide StepLeads;
  }

  lemma {:induction false} RunLeads(i: nat)
    requires i < 14
    ensures Leads(RUN[..i], StateAt(i))
  {
    if i == 0 {
      assert RUN[..0] == [];
    } else {
      RunLeads(i - 1);
      EveryStepLeads(i - 1);
      hide Leads, Enabled, Apply, StateAt;
      Then(RUN[..i - 1], StateAt(i - 1), RUN[i - 1]);
      assert RUN[..i - 1] + [RUN[i - 1]] == RUN[..i];
    }
  }

  /** There is a run in which Alert is left although its timer was never started and no hub has reported:
      the expiry of the handshake timer, sent behind the approval, ends it. */
  lemma AlertMayEndEarly()
    ensures exists ls ::
              && Schedule(Init(), ls, MAX)
              && (var s := Execute(Init(), ls, MAX);
                  && WellFormed(s.fsm) && ModeOf(s.fsm) == AlertPhase && s.task.toFsm == [Timeout]
                  && !s.h.alertEntered && s.h.reports == []
                  && ModeOf(Apply(s, RunFsm, MAX).fsm) == DataPhase)
  {
    RunLeads(13);
    var s := StateAt(13);
    assert Schedule(Init(), RUN[..13], MAX) && Execute(Init(), RUN[..13], MAX) == s;
    hide Schedule, Execute;
  }
}
