/** How a phase can be ended by what is already on its way: the steps that bring a pending timeout or
    quorum event to the machine, without executing an action. */
module FsmStale {
  import opened Common
  import opened FsmDomain
  import opened FsmSystem
  import opened FsmAsync

  lemma Prepend(s: Sys, l: Label, ls: seq<Label>, maxAttempts: nat)
    requires Enabled(s, l) && Schedule(Apply(s, l, maxAttempts), ls, maxAttempts)
    ensures Schedule(s, [l] + ls, maxAttempts)
    ensures Execute(s, [l] + ls, maxAttempts) == Execute(Apply(s, l, maxAttempts), ls, maxAttempts)
  {
    hide Apply, Enabled;
    assert ([l] + ls)[1..] == ls;
  }

  /** What an accepted event changes. */
  lemma Accepted(s: Sys, maxAttempts: nat)
    requires WellFormed(s.fsm) && s.task.toFsm != [] && Step(s.fsm, s.task.toFsm[0]).Valid?
    ensures var s', e := Apply(s, RunFsm, maxAttempts), s.task.toFsm[0];
            && WellFormed(s'.fsm) && Target(ModeOf(s.fsm), e) == Some(ModeOf(s'.fsm))
            && var acts := Emitted(ModeOf(s.fsm), e, ModeOf(s'.fsm));
               s'.actions == s.actions + [acts] && s'.pending == s.pending && s'.task.session == s.task.session && s'.timer == s.timer
               && s'.task.toFsm == s.task.toFsm[1..] && s'.task.toTimer == s.task.toTimer
               && Outstanding(s') == Outstanding(s) + acts
  {
    StepIsFlat(s.fsm, s.task.toFsm[0]);
    OutstandingAfter(s, RunFsm, maxAttempts);
    hide Step, Emitted, Target, CountRepeats, Outstanding;
  }

  /** What a rejected event changes. */
  lemma Rejected(s: Sys, maxAttempts: nat)
    requires WellFormed(s.fsm) && s.task.toFsm != [] && Step(s.fsm, s.task.toFsm[0]).Invalid?
    ensures var s' := Apply(s, RunFsm, maxAttempts);
            && Target(ModeOf(s.fsm), s.task.toFsm[0]) == None
            && s'.fsm == s.fsm && s'.actions == s.actions && s'.pending == s.pending && s'.task.session == s.task.session
            && s'.timer == s.timer && s'.task.toFsm == s.task.toFsm[1..] && s'.task.toTimer == s.task.toTimer
            && Outstanding(s') == Outstanding(s) && s'.h.repeats == s.h.repeats
  {
    StepIsFlat(s.fsm, s.task.toFsm[0]);
    OutstandingAfter(s, RunFsm, maxAttempts);
    hide Step, Emitted, Target, CountRepeats, Outstanding;
  }

  predicate IsPhase(m: Mode) { m in {AlertPhase, DataPhase, MonitorPhase} }

  function AfterPhase(m: Mode): Mode {
    match m case AlertPhase => DataPhase case DataPhase => MonitorPhase case _ => HandshakeOut
  }

  /** What ending a phase without executing anything leaves as it was. */
  ghost predicate Left(s: Sys, s': Sys)
    requires WellFormed(s.fsm)
  {
    && WellFormed(s'.fsm) && ModeOf(s'.fsm) == AfterPhase(ModeOf(s.fsm))
    && s'.h.alertEntered == s.h.alertEntered
    && Outstanding(s) <= Outstanding(s')
  }

  ghost predicate Ends(s: Sys, ls: seq<Label>, maxAttempts: nat)
    requires WellFormed(s.fsm)
  {
    Schedule(s, ls, maxAttempts) && Left(s, Execute(s, ls, maxAttempts))
  }

  /** Nothing that matters here has changed. */
  ghost predicate Still(s: Sys, s': Sys)
    requires WellFormed(s.fsm)
  {
    && s'.fsm == s.fsm && s'.h.alertEntered == s.h.alertEntered && s'.pending == s.pending && Outstanding(s') == Outstanding(s)
  }

  lemma StillEnds(s: Sys, l: Label, ls: seq<Label>, maxAttempts: nat)
    requires WellFormed(s.fsm) && Enabled(s, l) && Still(s, Apply(s, l, maxAttempts))
    requires Ends(Apply(s, l, maxAttempts), ls, maxAttempts)
    ensures Ends(s, [l] + ls, maxAttempts)
  {
    hide Apply, Enabled, Schedule, Execute, Outstanding;
    Prepend(s, l, ls, maxAttempts);
  }

  lemma PhaseReads(s: Sys, maxAttempts: nat)
    requires WellFormed(s.fsm) && IsPhase(ModeOf(s.fsm)) && s.task.toFsm != []
    ensures var s', e := Apply(s, RunFsm, maxAttempts), s.task.toFsm[0];
            && s'.task.toFsm == s.task.toFsm[1..] && s'.timer == s.timer && s'.task.toTimer == s.task.toTimer
            && (if Advances(e) then Left(s, s') else Still(s, s'))
  {
    var e := s.task.toFsm[0];
    StepIsFlat(s.fsm, e);
    OutstandingAfter(s, RunFsm, maxAttempts);
    hide Step, Emitted, Outstanding;
  }

  /** A timeout or quorum event in the channel ends the phase. */
  lemma {:induction false} ReadOn(s: Sys, maxAttempts: nat) returns (ls: seq<Label>)
    requires WellFormed(s.fsm) && IsPhase(ModeOf(s.fsm)) && CountAdvances(s.task.toFsm) >= 1
    ensures Ends(s, ls, maxAttempts)
    decreases |s.task.toFsm|
  {
    PhaseReads(s, maxAttempts);
    var s1 := Apply(s, RunFsm, maxAttempts);
    hide Left, Apply;
    if Advances(s.task.toFsm[0]) {
      assert Schedule(s1, [], maxAttempts);
      Prepend(s, RunFsm, [], maxAttempts);
      ls := [RunFsm] + [];
    } else {
      var rest := ReadOn(s1, maxAttempts);
      StillEnds(s, RunFsm, rest, maxAttempts);
      ls := [RunFsm] + rest;
    }
  }

  /** So does a running watchdog. */
  lemma FireThenRead(s: Sys, maxAttempts: nat) returns (ls: seq<Label>)
    requires WellFormed(s.fsm) && IsPhase(ModeOf(s.fsm)) && !s.timer.Idle?
    ensures Ends(s, ls, maxAttempts)
  {
    var s1 := Apply(s, TimerFires, maxAttempts);
    CountsAppend(s.task.toFsm, [Timeout], [], []);
    assert CountAdvances([Timeout]) == 1 by { assert [Timeout][1..] == []; }
    assert Still(s, s1) && s1.task.toFsm == s.task.toFsm + [Timeout];
    hide Apply, Left, Still, Ends, Enabled;
    var rest := ReadOn(s1, maxAttempts);
    assert Enabled(s, TimerFires);
    StillEnds(s, TimerFires, rest, maxAttempts);
    ls := [TimerFires] + rest;
  }

  /** So does a start of the watchdog that is still in its channel. */
  lemma {:induction false} ReceiveThenFire(s: Sys, maxAttempts: nat) returns (ls: seq<Label>)
    requires WellFormed(s.fsm) && IsPhase(ModeOf(s.fsm)) && s.timer.Idle? && CountInits(s.task.toTimer) >= 1
    ensures Ends(s, ls, maxAttempts)
    decreases |s.task.toTimer|
  {
    var s1 := Apply(s, WatchdogReceives, maxAttempts);
    assert Enabled(s, WatchdogReceives) && Still(s, s1) && s1.task.toTimer == s.task.toTimer[1..];
    assert s.task.toTimer[0].InitTimer? <==> !s1.timer.Idle?;
    hide Apply, Left, Still, Ends, Enabled;
    var rest;
    if s.task.toTimer[0].InitTimer? {
      rest := FireThenRead(s1, maxAttempts);
    } else {
      rest := ReceiveThenFire(s1, maxAttempts);
    }
    StillEnds(s, WatchdogReceives, rest, maxAttempts);
    ls := [WatchdogReceives] + rest;
  }

  /** What can still end a phase although no further action is executed. */
  predicate TimeoutComing(s: Sys) {
    CountAdvances(s.task.toFsm) >= 1 || !s.timer.Idle? || CountInits(s.task.toTimer) >= 1
  }

  lemma EndByTimeout(s: Sys, maxAttempts: nat) returns (ls: seq<Label>)
    requires WellFormed(s.fsm) && IsPhase(ModeOf(s.fsm)) && TimeoutComing(s)
    ensures Ends(s, ls, maxAttempts)
  {
    hide Ends, CountAdvances, CountInits;
    if CountAdvances(s.task.toFsm) >= 1 {
      ls := ReadOn(s, maxAttempts);
    } else if !s.timer.Idle? {
      ls := FireThenRead(s, maxAttempts);
    } else {
      ls := ReceiveThenFire(s, maxAttempts);
    }
  }
}
