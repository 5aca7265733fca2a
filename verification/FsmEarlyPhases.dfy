/** When Data and Monitor can be ended before their entry action is executed: by a timeout or quorum event
    still on its way, or by a duplicate of the quorum that ended the phase before, as long as the fsm task
    has not yet taken up the entry action and so still listens to reports. Every interleaving is
    considered. */
module FsmEarlyPhases {
  import opened Common
  import opened FsmDomain
  import opened FsmTask
  import opened Watchdog
  import opened FsmSystem
  import opened FsmAsync
  import opened FsmStale

  predicate IsLater(m: Mode) { m == DataPhase || m == MonitorPhase }

  function EntryOf(m: Mode): Action
    requires IsLater(m)
  {
    OnEntryPhase(if m == DataPhase then Data else Monitor)
  }

  function VectorOf(m: Mode): seq<Action>
    requires IsLater(m)
  {
    [Action.StopTimer, EntryOf(m)]
  }

  /** Modes from `m` on. */
  predicate From(m: Mode, now: Mode)
    requires IsLater(m)
  {
    now in {MonitorPhase, HandshakeOut, CheckOut, RepeatOut, Safe, Steady} || now == m
  }

  /** Everything the task still has to do before it takes up the last vector. */
  function Earlier(s: Sys): seq<Action>
    requires s.actions != []
  {
    s.pending + Flatten(s.actions[..|s.actions| - 1])
  }

  /** The entry action is being executed: nothing else is queued, and no report is heard. */
  predicate TakenUp(s: Sys, m: Mode)
    requires IsLater(m)
  {
    (s.pending == VectorOf(m) || s.pending == [EntryOf(m)]) && s.actions == []
  }

  /** The entry action waits in the channel: by the time it is reached the session is in the phase before. */
  ghost predicate InChannel(s: Sys, m: Mode)
    requires IsLater(m)
  {
    && s.actions != [] && s.actions[|s.actions| - 1] == VectorOf(m) && EntryOf(m) !in Earlier(s)
    && InPhase(Replay(s.task.session.state, Earlier(s)))
  }

  /** Where the entry action of `m` can be. */
  ghost predicate Placed(s: Sys, m: Mode)
    requires IsLater(m)
  {
    && WellFormed(s.fsm)
    && (EntryOf(m) in Outstanding(s) ==> From(m, ModeOf(s.fsm)))
    && (ModeOf(s.fsm) == m && EntryOf(m) in Outstanding(s) ==> TakenUp(s, m) || InChannel(s, m))
  }

  lemma LastVector(ss: seq<seq<Action>>)
    requires ss != []
    ensures Flatten(ss) == Flatten(ss[..|ss| - 1]) + ss[|ss| - 1]
  {
    FlattenAppend(ss[..|ss| - 1], ss[|ss| - 1]);
    assert ss[..|ss| - 1] + [ss[|ss| - 1]] == ss;
  }

  lemma EarlierIsOutstanding(s: Sys)
    requires s.actions != []
    ensures Outstanding(s) == Earlier(s) + s.actions[|s.actions| - 1]
  {
    LastVector(s.actions);
  }

  // --- the placement is kept ------------------------------------------------------------------------------

  /** Which arrows emit the entry action. */
  lemma EmitsEntry(from: Mode, e: Event, to: Mode, m: Mode)
    requires Target(from, e) == Some(to) && IsLater(m)
    ensures EntryOf(m) in Emitted(from, e, to) <==> to == m
    ensures to == m ==> Emitted(from, e, to) == VectorOf(m) && InPhase(SessionOf(from)) && !From(m, from)
    ensures From(m, from) ==> From(m, to) && to != m
  {
  }

  /** The vector just emitted is the last in the channel. */
  lemma JustEmitted(s: Sys, s': Sys, m: Mode)
    requires IsLater(m) && s'.actions == s.actions + [VectorOf(m)] && s'.pending == s.pending
    requires s'.task.session == s.task.session && EntryOf(m) !in Outstanding(s)
    requires InPhase(Replay(s.task.session.state, Outstanding(s)))
    ensures InChannel(s', m)
  {
    assert s'.actions[..|s'.actions| - 1] == s.actions;
    assert Earlier(s') == Outstanding(s);
  }

  lemma PlacedAfterRunFsm(s: Sys, m: Mode, maxAttempts: nat)
    requires IsLater(m) && Placed(s, m) && Lags(s) && s.task.toFsm != []
    ensures Placed(Apply(s, RunFsm, maxAttempts), m)
  {
    hide Step, Emitted, Target, From, CountRepeats, Outstanding, InChannel, VectorOf, EntryOf, Replay;
    var e, s' := s.task.toFsm[0], Apply(s, RunFsm, maxAttempts);
    if Step(s.fsm, e).Valid? {
      Accepted(s, maxAttempts);
      EmitsEntry(ModeOf(s.fsm), e, ModeOf(s'.fsm), m);
      EntersM(m);
      if ModeOf(s'.fsm) == m { JustEmitted(s, s', m); }
    } else {
      OutstandingAfter(s, RunFsm, maxAttempts);
      SamePlace(s, s', m);
    }
  }

  lemma SamePlace(s: Sys, s': Sys, m: Mode)
    requires IsLater(m) && Placed(s, m)
    requires s'.fsm == s.fsm && s'.pending == s.pending && s'.actions == s.actions
    requires s'.task.session.state == s.task.session.state && Outstanding(s') == Outstanding(s)
    ensures Placed(s', m)
  {
    hide Outstanding, Replay, From;
  }

  lemma EntersM(m: Mode)
    requires IsLater(m)
    ensures From(m, m)
  {
  }

  lemma OneLessToDo(s: Sys, total: nat, maxAttempts: nat)
    requires s.actions != [] && s.pending != []
    ensures var s' := Apply(s, DoAction(total), maxAttempts);
            && s'.actions == s.actions && s'.fsm == s.fsm 
            && Earlier(s) != [] && Earlier(s)[0] == s.pending[0] && Earlier(s') == Earlier(s)[1..]
  {
    hide Flatten, HandleAction, RecordAction;
  }

  lemma PlacedAfterAction(s: Sys, m: Mode, total: nat, maxAttempts: nat)
    requires IsLater(m) && Placed(s, m) && s.pending != []
    ensures Placed(Apply(s, DoAction(total), maxAttempts), m)
  {
    hide HandleAction, From, RecordAction, Earlier;
    var s' := Apply(s, DoAction(total), maxAttempts);
    OutstandingAfter(s, DoAction(total), maxAttempts);
    ExecutingIsReplaying(s.task, s.pending[0], maxAttempts, total);
    if s.actions != [] {
      OneLessToDo(s, total, maxAttempts);
    }
    assert EntryOf(m) in Outstanding(s') ==> EntryOf(m) in Outstanding(s);
    assert TakenUp(s, m) && EntryOf(m) in Outstanding(s') ==> TakenUp(s', m);
  }

  lemma PlacedAfterTake(s: Sys, m: Mode, maxAttempts: nat)
    requires IsLater(m) && Placed(s, m) && Enabled(s, TakeVector)
    ensures Placed(Apply(s, TakeVector, maxAttempts), m)
  {
    var s' := Apply(s, TakeVector, maxAttempts);
    OutstandingAfter(s, TakeVector, maxAttempts);
    if |s.actions| > 1 {
      assert s.actions[..|s.actions| - 1][0] == s.actions[0];
      assert s.actions[..|s.actions| - 1][1..] == s.actions[1..][..|s.actions| - 2];
      assert Earlier(s) == Earlier(s');
    }
    hide Outstanding;
  }

  lemma PlacedOtherwise(s: Sys, l: Label, m: Mode, maxAttempts: nat)
    requires IsLater(m) && Placed(s, m) && Enabled(s, l) && !l.RunFsm? && !l.DoAction? && !l.TakeVector?
    ensures Placed(Apply(s, l, maxAttempts), m)
  {
    hide HandleCommand, From, Flatten;
    OutstandingAfter(s, l, maxAttempts);
    if l.Receive? {
      CommandsKeepSession(s.task, l.cmd, l.total);
    }
  }

  /** The invariant of all interleavings. */
  ghost predicate Arranged(s: Sys) { Lags(s) && Placed(s, DataPhase) && Placed(s, MonitorPhase) }

  lemma PlacedKept(s: Sys, l: Label, m: Mode, maxAttempts: nat)
    requires IsLater(m) && Placed(s, m) && Lags(s) && Enabled(s, l)
    ensures Placed(Apply(s, l, maxAttempts), m)
  {
    hide Placed, Lags, Apply;
    match l {
      case RunFsm => PlacedAfterRunFsm(s, m, maxAttempts);
      case DoAction(total) => PlacedAfterAction(s, m, total, maxAttempts);
      case TakeVector => PlacedAfterTake(s, m, maxAttempts);
      case _ => PlacedOtherwise(s, l, m, maxAttempts);
    }
  }

  lemma {:induction false} ArrangedAlong(s: Sys, ls: seq<Label>, maxAttempts: nat)
    requires Arranged(s) && Schedule(s, ls, maxAttempts)
    ensures Arranged(Execute(s, ls, maxAttempts))
    decreases |ls|
  {
    hide Lags, Placed, Apply, Enabled;
    if ls != [] {
      LagKept(s, ls[0], maxAttempts);
      PlacedKept(s, ls[0], DataPhase, maxAttempts);
      PlacedKept(s, ls[0], MonitorPhase, maxAttempts);
      ArrangedAlong(Apply(s, ls[0], maxAttempts), ls[1..], maxAttempts);
    }
  }

  lemma InitArranged()
    ensures Arranged(Init())
  {
    InitAsync();
    var s := Init();
    assert Outstanding(s) == [OnEntryBalance(InitBalanceMode)] by {
      assert s.actions[1..] == [] && Flatten(s.actions) == s.actions[0] + Flatten<Action>([]);
    }
    hide Accounts, Lags;
  }

  // --- when a phase can end before its entry ---------------------------------------------------------------

  /** The phase has been left although its entry action is still to be executed. */
  ghost predicate EndsUnentered(s: Sys, m: Mode, ls: seq<Label>, maxAttempts: nat)
    requires IsLater(m)
  {
    && Schedule(s, ls, maxAttempts)
    && var s' := Execute(s, ls, maxAttempts);
       WellFormed(s'.fsm) && ModeOf(s'.fsm) != m && EntryOf(m) in Outstanding(s')
  }

  ghost predicate Due(s: Sys, m: Mode)
    requires IsLater(m)
  {
    Placed(s, m) && ModeOf(s.fsm) == m && EntryOf(m) in Outstanding(s)
  }

  lemma EndedMeansUnentered(s: Sys, m: Mode, ls: seq<Label>, maxAttempts: nat)
    requires IsLater(m) && Due(s, m) && Ends(s, ls, maxAttempts)
    ensures EndsUnentered(s, m, ls, maxAttempts)
  {
    hide Schedule, Execute, Outstanding, TakenUp, InChannel;
  }

  lemma UnenteredStep(s: Sys, m: Mode, l: Label, ls: seq<Label>, maxAttempts: nat)
    requires IsLater(m) && Enabled(s, l) && EndsUnentered(Apply(s, l, maxAttempts), m, ls, maxAttempts)
    ensures EndsUnentered(s, m, [l] + ls, maxAttempts)
  {
    hide Apply, Enabled, Schedule, Execute, Outstanding;
    Prepend(s, l, ls, maxAttempts);
  }

  /** While the entry waits in the channel and nothing else is left to do, one report of one hub is a
      quorum. */
  lemma DuplicateQuorum(s: Sys, m: Mode, maxAttempts: nat) returns (ls: seq<Label>)
    requires IsLater(m) && Due(s, m) && InChannel(s, m) && Earlier(s) == [] && s.pending == []
    ensures EndsUnentered(s, m, ls, maxAttempts)
  {
    var c := FromHub(EmptyQueue("hub", true));
    var l := Label.Receive(c, 1);
    var s1 := Apply(s, l, maxAttempts);
    assert "hub" in InsertOnce(s.task.session.empty, "hub", true);
    assert |InsertOnce(s.task.session.empty, "hub", true)| >= 1;
    CommandSends(s.task, c, 1);
    assert s1.task.toFsm == s.task.toFsm + [QuorumPhase];
    CountsAppend(s.task.toFsm, [QuorumPhase], [], []);
    assert CountAdvances([QuorumPhase]) == 1 by { assert [QuorumPhase][1..] == []; }
    PlacedAfterReceive(s, l, m, maxAttempts);
    assert Due(s1, m);
    hide HandleCommand, Due, InChannel, Placed, Apply, CountAdvances, Outstanding;
    var rest := EndByTimeout(s1, maxAttempts);
    EndedMeansUnentered(s1, m, rest, maxAttempts);
    UnenteredStep(s, m, l, rest, maxAttempts);
    ls := [l] + rest;
  }

  lemma PlacedAfterReceive(s: Sys, l: Label, m: Mode, maxAttempts: nat)
    requires IsLater(m) && Placed(s, m) && Enabled(s, l) && l.Receive?
    ensures Placed(Apply(s, l, maxAttempts), m)
  {
    hide Placed, Apply, Enabled;
    PlacedOtherwise(s, l, m, maxAttempts);
  }

  /** One step less to go. */
  ghost predicate Closer(s: Sys, s': Sys, m: Mode)
    requires IsLater(m) && s.actions != []
  {
    Due(s', m) && InChannel(s', m) && |Earlier(s')| + |s'.actions| < |Earlier(s)| + |s.actions|
  }

  lemma WorkOffAction(s: Sys, m: Mode, maxAttempts: nat)
    requires IsLater(m) && Due(s, m) && InChannel(s, m) && s.pending != []
    ensures Closer(s, Apply(s, DoAction(0), maxAttempts), m)
  {
    PlacedAfterAction(s, m, 0, maxAttempts);
    OneLessToDo(s, 0, maxAttempts);
    hide Apply, Outstanding, Earlier, Replay, From;
    EntryIsLast(Apply(s, DoAction(0), maxAttempts));
  }

  lemma EntryIsLast(s: Sys)
    requires s.actions != [] && s.actions[|s.actions| - 1] != []
    ensures var v := s.actions[|s.actions| - 1]; v[|v| - 1] in Outstanding(s)
  {
    EarlierIsOutstanding(s);
    var v := s.actions[|s.actions| - 1];
    assert Outstanding(s)[|Outstanding(s)| - 1] == v[|v| - 1];
    hide Outstanding, Earlier;
  }

  lemma WorkOffVector(s: Sys, m: Mode, maxAttempts: nat)
    requires IsLater(m) && Due(s, m) && InChannel(s, m) && s.pending == [] && |s.actions| > 1
    ensures Closer(s, Apply(s, TakeVector, maxAttempts), m)
  {
    var s' := Apply(s, TakeVector, maxAttempts);
    PlacedAfterTake(s, m, maxAttempts);
    assert s'.actions == s.actions[1..] && s'.fsm == s.fsm;
    assert s.actions[..|s.actions| - 1][0] == s.actions[0];
    assert s.actions[..|s.actions| - 1][1..] == s.actions[1..][..|s.actions| - 2];
    assert Earlier(s) == Earlier(s');
    EntryIsLast(s');
    hide Apply, Outstanding, Earlier, Replay, From;
  }

  /** The fsm task works off what precedes the entry action. */
  lemma WorkOff(s: Sys, m: Mode, maxAttempts: nat) returns (l: Label)
    requires IsLater(m) && Due(s, m) && InChannel(s, m) && s.actions != [] && (s.pending != [] || |s.actions| > 1)
    ensures Enabled(s, l) && Closer(s, Apply(s, l, maxAttempts), m)
  {
    hide Due, InChannel, Closer, Apply;
    if s.pending != [] {
      l := DoAction(0);
      WorkOffAction(s, m, maxAttempts);
    } else {
      l := TakeVector;
      WorkOffVector(s, m, maxAttempts);
    }
  }

  lemma {:induction false} WorkThenDuplicate(s: Sys, m: Mode, maxAttempts: nat) returns (ls: seq<Label>)
    requires IsLater(m) && Due(s, m) && InChannel(s, m)
    ensures EndsUnentered(s, m, ls, maxAttempts)
    decreases |Earlier(s)| + |s.actions|
  {
    if s.pending == [] && |s.actions| == 1 {
      assert Earlier(s) == [] by { assert s.actions[..0] == []; }
      ls := DuplicateQuorum(s, m, maxAttempts);
    } else {
      hide Due, InChannel, Apply, Enabled, EndsUnentered;
      HasVector(s, m);
      var l := WorkOff(s, m, maxAttempts);
      var rest := WorkThenDuplicate(Apply(s, l, maxAttempts), m, maxAttempts);
      UnenteredStep(s, m, l, rest, maxAttempts);
      ls := [l] + rest;
    }
  }

  lemma HasVector(s: Sys, m: Mode)
    requires IsLater(m) && InChannel(s, m)
    ensures s.actions != []
  {
  }

  // --- when it cannot ------------------------------------------------------------------------------------------

  /** The entry is being executed and nothing is on its way; or it has been executed, and never comes again. */
  ghost predicate Calm(s: Sys, m: Mode)
    requires IsLater(m)
  {
    && WellFormed(s.fsm)
    && From(m, ModeOf(s.fsm))
    && (EntryOf(m) in Outstanding(s) ==> ModeOf(s.fsm) == m && TakenUp(s, m) && !TimeoutComing(s))
  }

  lemma CalmRunFsm(s: Sys, m: Mode, maxAttempts: nat)
    requires IsLater(m) && Calm(s, m) && s.task.toFsm != []
    ensures Calm(Apply(s, RunFsm, maxAttempts), m)
  {
    var e, s' := s.task.toFsm[0], ApplyRunFsm(s);
    hide Step, Emitted, CountRepeats, TakenUp;
    StepIsFlat(s.fsm, e);
    OutstandingAfter(s, RunFsm, maxAttempts);
    if EntryOf(m) in Outstanding(s) {
      assert !Advances(e);
      PhaseReads(s, maxAttempts);
      StillTakenUp(s, s', m);
    } else if Step(s.fsm, e).Valid? {
      EmitsEntry(ModeOf(s.fsm), e, ModeOf(s'.fsm), m);
    }
    hide Outstanding, From, Target;
  }

  lemma StillTakenUp(s: Sys, s': Sys, m: Mode)
    requires IsLater(m) && TakenUp(s, m) && s'.pending == s.pending && s'.actions == s.actions
    ensures TakenUp(s', m)
  {
  }

  lemma StopsOnly(commands: seq<TimerCmd<Mode>>)
    ensures CountInits(commands + [TimerCmd.StopTimer]) == CountInits(commands)
    ensures TimerCommandsOf(Action.StopTimer) == [TimerCmd.StopTimer]
  {
    CountsAppend([], [], commands, [TimerCmd.StopTimer]);
    assert [TimerCmd<Mode>.StopTimer][1..] == [];
  }

  lemma CalmAction(s: Sys, m: Mode, total: nat, maxAttempts: nat)
    requires IsLater(m) && Calm(s, m) && s.pending != []
    ensures Calm(Apply(s, DoAction(total), maxAttempts), m)
  {
    hide HandleAction, From, RecordAction, TimerCommandsOf, CountInits, CountAdvances, Verdict, BeatActionsOf;
    var s' := Apply(s, DoAction(total), maxAttempts);
    OutstandingAfter(s, DoAction(total), maxAttempts);
    ActionSends(s.task, s.pending[0], maxAttempts, total);
    if EntryOf(m) in Outstanding(s') {
      assert EntryOf(m) in Outstanding(s) && s.pending == VectorOf(m);
      StopsOnly(s.task.toTimer);
      assert s.pending[0] == Action.StopTimer && !CountsVotes(s.pending[0]);
      assert s'.task.toTimer == s.task.toTimer + [TimerCmd.StopTimer] && s'.task.toFsm == s.task.toFsm;
      assert s'.pending == [EntryOf(m)] && s'.timer == s.timer;
    }
  }

  lemma CalmOtherwise(s: Sys, m: Mode, l: Label, maxAttempts: nat)
    requires IsLater(m) && Calm(s, m) && Enabled(s, l) && !l.RunFsm? && !l.DoAction?
    ensures Calm(Apply(s, l, maxAttempts), m)
  {
    hide HandleCommand, From, CountAdvances;
    OutstandingAfter(s, l, maxAttempts);
  }

  lemma {:induction false} StaysCalm(s: Sys, m: Mode, ls: seq<Label>, maxAttempts: nat)
    requires IsLater(m) && Calm(s, m) && Schedule(s, ls, maxAttempts)
    ensures Calm(Execute(s, ls, maxAttempts), m)
    decreases |ls|
  {
    hide Calm, Apply, Enabled;
    if ls != [] {
      match ls[0] {
        case RunFsm => CalmRunFsmEnabled(s, m, maxAttempts);
        case DoAction(total) => CalmActionEnabled(s, m, total, maxAttempts);
        case _ => CalmOtherwise(s, m, ls[0], maxAttempts);
      }
      StaysCalm(Apply(s, ls[0], maxAttempts), m, ls[1..], maxAttempts);
    }
  }

  lemma CalmRunFsmEnabled(s: Sys, m: Mode, maxAttempts: nat)
    requires IsLater(m) && Calm(s, m) && Enabled(s, RunFsm)
    ensures Calm(Apply(s, RunFsm, maxAttempts), m)
  {
    hide Calm, Apply;
    CalmRunFsm(s, m, maxAttempts);
  }

  lemma CalmActionEnabled(s: Sys, m: Mode, total: nat, maxAttempts: nat)
    requires IsLater(m) && Calm(s, m) && Enabled(s, DoAction(total))
    ensures Calm(Apply(s, DoAction(total), maxAttempts), m)
  {
    hide Calm, Apply;
    CalmAction(s, m, total, maxAttempts);
  }

  /** Exactly when Data or Monitor can be left before its entry action is executed: when a timeout or quorum
      event is on its way, or the fsm task has not yet taken up the vector that holds the action. */
  lemma PhaseEndsEarlyIff(s: Sys, m: Mode, maxAttempts: nat)
    requires IsLater(m) && Due(s, m)
    ensures (exists ls :: EndsUnentered(s, m, ls, maxAttempts)) <==> TimeoutComing(s) || EntryOf(m) !in s.pending
  {
    if TimeoutComing(s) {
      var ls := EndByTimeout(s, maxAttempts);
      EndedMeansUnentered(s, m, ls, maxAttempts);
    } else if EntryOf(m) !in s.pending {
      var ls := WorkThenDuplicate(s, m, maxAttempts);
    } else {
      TakenUpInCalm(s, m);
      forall ls ensures !EndsUnentered(s, m, ls, maxAttempts) {
        if Schedule(s, ls, maxAttempts) {
          StaysCalm(s, m, ls, maxAttempts);
        }
      }
    }
  }

  lemma PendingIsTakenUp(s: Sys, m: Mode)
    requires IsLater(m) && Due(s, m)
    ensures EntryOf(m) in s.pending <==> TakenUp(s, m)
    ensures EntryOf(m) !in s.pending <==> InChannel(s, m)
  {
  }

  /** And every state of every run in which the entry of Data or Monitor is due is of that kind. */
  lemma DueInEveryRun(ls: seq<Label>, m: Mode, maxAttempts: nat)
    requires IsLater(m) && Schedule(Init(), ls, maxAttempts)
    requires var s := Execute(Init(), ls, maxAttempts);
             WellFormed(s.fsm) && ModeOf(s.fsm) == m && EntryOf(m) in Outstanding(s)
    ensures Due(Execute(Init(), ls, maxAttempts), m)
  {
    InitArranged();
    ArrangedAlong(Init(), ls, maxAttempts);
    hide Placed, Schedule, Execute;
  }

  // --- after the entry -----------------------------------------------------------------------------------------

  /** Events the machine reads. */
  function Reads(ls: seq<Label>): nat {
    if ls == [] then 0 else (if ls[0].RunFsm? then 1 else 0) + Reads(ls[1..])
  }

  predicate OwnStart(c: TimerCmd<Mode>, m: Mode) { c.InitTimer? ==> c.owner == m }

  /** Whatever timer runs or will be started is the phase's own. */
  predicate OwnTimers(s: Sys, m: Mode) {
    (s.timer.Idle? || s.timer.owner == m) && forall c :: c in s.task.toTimer ==> OwnStart(c, m)
  }

  /** The phase is entered, and the first `old` events in the channel, sent before the entry, do not end it. */
  ghost predicate Settled(s: Sys, m: Mode, old_: nat) {
    && WellFormed(s.fsm) && ModeOf(s.fsm) == m && s.pending == [] && s.actions == []
    && old_ <= |s.task.toFsm| && CountAdvances(s.task.toFsm[..old_]) == 0
    && OwnTimers(s, m)
  }

  lemma SettledRead(s: Sys, m: Mode, old_: nat, maxAttempts: nat)
    requires IsLater(m) && Settled(s, m, old_) && old_ > 0
    ensures Enabled(s, RunFsm) && Settled(Apply(s, RunFsm, maxAttempts), m, old_ - 1)
  {
    var front := s.task.toFsm[..old_];
    assert front[0] == s.task.toFsm[0] && front[1..] == s.task.toFsm[1..][..old_ - 1];
    assert !Advances(front[0]);
    PhaseRejects(m, front[0]);
    StepIsFlat(s.fsm, front[0]);
    assert Enabled(s, RunFsm);
    hide Step, Target;
    Rejected(s, maxAttempts);
    hide Apply, Outstanding, CountAdvances;
  }

  lemma PhaseRejects(m: Mode, e: Event)
    requires IsLater(m) && !Advances(e)
    ensures Target(m, e) == None
  {
  }

  lemma SettledReceive(s: Sys, m: Mode, old_: nat, c: Command, total: nat, maxAttempts: nat)
    requires Settled(s, m, old_)
    ensures Settled(Apply(s, Label.Receive(c, total), maxAttempts), m, old_)
  {
    hide HandleCommand, EventsOfCommand, CountAdvances;
    CommandSends(s.task, c, total);
    var s' := Apply(s, Label.Receive(c, total), maxAttempts);
    assert s'.task.toFsm[..old_] == s.task.toFsm[..old_];
  }

  lemma SettledTimer(s: Sys, m: Mode, old_: nat, l: Label, maxAttempts: nat)
    requires Settled(s, m, old_) && Enabled(s, l) && (l.TimerFires? || l.WatchdogReceives?)
    ensures Settled(Apply(s, l, maxAttempts), m, old_)
  {
    hide CountAdvances;
    var s' := Apply(s, l, maxAttempts);
    assert s'.task.toFsm[..old_] == s.task.toFsm[..old_];
    if l.WatchdogReceives? {
      assert s.task.toTimer[0] in s.task.toTimer && OwnStart(s.task.toTimer[0], m);
    }
  }

  lemma SettledStep(s: Sys, m: Mode, old_: nat, l: Label, maxAttempts: nat)
    requires IsLater(m) && Settled(s, m, old_) && Enabled(s, l) && (l.RunFsm? ==> old_ > 0)
    ensures Settled(Apply(s, l, maxAttempts), m, if l.RunFsm? then old_ - 1 else old_)
  {
    match l {
      case RunFsm => SettledRead(s, m, old_, maxAttempts);
      case Receive(c, total) => SettledReceive(s, m, old_, c, total, maxAttempts);
      case TimerFires | WatchdogReceives => SettledTimer(s, m, old_, l, maxAttempts);
      case DoAction(_) | TakeVector =>
      case _ => hide CountAdvances;
    }
  }

  lemma {:induction false} SettledAlong(s: Sys, m: Mode, old_: nat, ls: seq<Label>, maxAttempts: nat)
    requires IsLater(m) && Settled(s, m, old_) && Schedule(s, ls, maxAttempts) && Reads(ls) <= old_
    ensures Settled(Execute(s, ls, maxAttempts), m, old_ - Reads(ls))
    decreases |ls|
  {
    hide Settled, Apply, Enabled;
    if ls != [] {
      SettledStep(s, m, old_, ls[0], maxAttempts);
      SettledAlong(Apply(s, ls[0], maxAttempts), m, if ls[0].RunFsm? then old_ - 1 else old_, ls[1..], maxAttempts);
    }
  }

  /** The entry executed in calm settles the phase. */
  lemma EntrySettles(s: Sys, m: Mode, total: nat, maxAttempts: nat)
    requires IsLater(m) && Calm(s, m) && s.pending != [] && s.pending[0] == EntryOf(m)
    ensures Settled(Apply(s, DoAction(total), maxAttempts), m, |s.task.toFsm|)
  {
    assert s.pending[0] in Outstanding(s);
    hide HandleAction, Outstanding, Verdict, CountAdvances;
    ActionSends(s.task, s.pending[0], maxAttempts, total);
    var s' := Apply(s, DoAction(total), maxAttempts);
    assert s'.task.toFsm == s.task.toFsm && s'.task.toFsm[..|s.task.toFsm|] == s.task.toFsm;
    assert s'.task.toTimer == s.task.toTimer + [InitTimer(m)];
    NoStarts(s.task.toTimer, m);
    hide CountInits;
  }

  lemma {:induction false} NoStarts(cs: seq<TimerCmd<Mode>>, m: Mode)
    requires CountInits(cs) == 0
    ensures forall c :: c in cs ==> OwnStart(c, m)
  {
    if cs != [] {
      NoStarts(cs[1..], m);
      assert cs == [cs[0]] + cs[1..];
    }
  }

  /** If the vector of Data or Monitor is taken up with no timeout or quorum event on its way, nothing sent before
      its entry is executed ends the phase afterwards: as long as the machine has read no more events than were in
      the channel at that moment it is still in the phase, and every timer started until then is the phase's own. */
  lemma NothingStaleInPhase(s: Sys, m: Mode, before: seq<Label>, total: nat, after: seq<Label>, maxAttempts: nat)
    requires IsLater(m) && Due(s, m) && EntryOf(m) in s.pending && !TimeoutComing(s)
    requires Schedule(s, before, maxAttempts)
    requires var s1 := Execute(s, before, maxAttempts);
             && s1.pending != [] && s1.pending[0] == EntryOf(m)
             && Schedule(Apply(s1, DoAction(total), maxAttempts), after, maxAttempts)
             && Reads(after) <= |s1.task.toFsm|
    ensures var s' := Execute(Apply(Execute(s, before, maxAttempts), DoAction(total), maxAttempts), after, maxAttempts);
            WellFormed(s'.fsm) && ModeOf(s'.fsm) == m && OwnTimers(s', m)
  {
    hide *;
    TakenUpInCalm(s, m);
    StaysCalm(s, m, before, maxAttempts);
    SettledAfterEntry(Execute(s, before, maxAttempts), m, total, after, maxAttempts);
  }

  lemma SettledAfterEntry(s: Sys, m: Mode, total: nat, after: seq<Label>, maxAttempts: nat)
    requires IsLater(m) && Calm(s, m) && s.pending != [] && s.pending[0] == EntryOf(m)
    requires Schedule(Apply(s, DoAction(total), maxAttempts), after, maxAttempts) && Reads(after) <= |s.task.toFsm|
    ensures var s' := Execute(Apply(s, DoAction(total), maxAttempts), after, maxAttempts);
            WellFormed(s'.fsm) && ModeOf(s'.fsm) == m && OwnTimers(s', m)
  {
    assert Enabled(s, DoAction(total));
    hide *;
    EntrySettles(s, m, total, maxAttempts);
    SettledAlong(Apply(s, DoAction(total), maxAttempts), m, |s.task.toFsm|, after, maxAttempts);
    SettledMeans(Execute(Apply(s, DoAction(total), maxAttempts), after, maxAttempts), m, |s.task.toFsm| - Reads(after));
  }

  lemma TakenUpInCalm(s: Sys, m: Mode)
    requires IsLater(m) && Due(s, m) && EntryOf(m) in s.pending && !TimeoutComing(s)
    ensures Calm(s, m)
  {
    PendingIsTakenUp(s, m);
    EntersM(m);
    hide TakenUp, Outstanding, TimeoutComing, From;
  }

  lemma SettledMeans(s: Sys, m: Mode, old_: nat)
    requires Settled(s, m, old_)
    ensures WellFormed(s.fsm) && ModeOf(s.fsm) == m && OwnTimers(s, m)
  {
  }
}
