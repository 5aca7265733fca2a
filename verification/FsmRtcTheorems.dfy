/** What run-to-completion operation guarantees: timer discipline, termination, vote and retry bounds,
    justified phase exits. All statements quantify over every schedule of commands, hub counts, expiries
    and task interleavings from power-on. */
module FsmRtcTheorems {
  import opened Common
  import opened FsmDomain
  import opened FsmTask
  import opened Watchdog
  import opened FsmSystem
  import opened FsmAsync
  import opened FsmRtc

  ghost predicate RtcSchedule(s: Sys, ls: seq<Label>, maxAttempts: nat)
    decreases |ls|
  {
    ls == [] || (RtcEnabled(s, ls[0]) && RtcSchedule(Apply(s, ls[0], maxAttempts), ls[1..], maxAttempts))
  }

  ghost function RtcExecute(s: Sys, ls: seq<Label>, maxAttempts: nat): Sys
    requires RtcSchedule(s, ls, maxAttempts)
    decreases |ls|
  {
    if ls == [] then s else RtcExecute(Apply(s, ls[0], maxAttempts), ls[1..], maxAttempts)
  }

  lemma {:induction false} RtcAlong(s: Sys, ls: seq<Label>, maxAttempts: nat)
    requires RtcInv(s, maxAttempts) && RtcSchedule(s, ls, maxAttempts)
    ensures RtcInv(RtcExecute(s, ls, maxAttempts), maxAttempts)
    decreases |ls|
  {
    hide RtcInv, Apply, Enabled;
    if ls != [] {
      RtcKept(s, ls[0], maxAttempts);
      RtcAlong(Apply(s, ls[0], maxAttempts), ls[1..], maxAttempts);
    }
  }

  /** Reachable in run-to-completion operation. */
  ghost predicate Reachable(s: Sys, maxAttempts: nat) {
    exists ls :: RtcSchedule(Init(), ls, maxAttempts) && s == RtcExecute(Init(), ls, maxAttempts)
  }

  lemma ReachableInv(s: Sys, maxAttempts: nat)
    requires Reachable(s, maxAttempts)
    ensures RtcInv(s, maxAttempts)
  {
    hide RtcInv;
    var ls :| RtcSchedule(Init(), ls, maxAttempts) && s == RtcExecute(Init(), ls, maxAttempts);
    RtcInit(maxAttempts);
    RtcAlong(Init(), ls, maxAttempts);
  }

  lemma WellFormedThroughout(s: Sys, maxAttempts: nat)
    requires Reachable(s, maxAttempts)
    ensures WellFormed(s.fsm)
  {
    hide RtcRest, Reachable;
    ReachableInv(s, maxAttempts);
  }

  // ---------------------------------------------------------------------------------------------
  // Timer discipline.

  /** No watchdog ever receives `InitTimer` while running; neither goes deaf. */
  lemma NoTimerIsRestarted(s: Sys, maxAttempts: nat)
    requires Reachable(s, maxAttempts)
    ensures !(s.timer.Armed? && s.task.toTimer != [] && s.task.toTimer[0].InitTimer?)
    ensures !(s.beatTimer.Armed? && s.generator.toTimer != [] && s.generator.toTimer[0].InitTimer?)
    ensures !s.timer.Deaf? && !s.beatTimer.Deaf?
  {
    hide *;
    ReachableInv(s, maxAttempts);
    WatchdogIsDisciplined(s, maxAttempts);
    BeatTimerIsDisciplined(s, maxAttempts);
  }

  lemma WatchdogIsDisciplined(s: Sys, maxAttempts: nat)
    requires RtcInv(s, maxAttempts)
    ensures !(s.timer.Armed? && s.task.toTimer != [] && s.task.toTimer[0].InitTimer?) && !s.timer.Deaf?
  {
    hide Lags, Linear, BeatInv, VotesInv, Evidence, Tries, Apply, Outstanding;
    if s.timer.Armed? && s.task.toTimer != [] {
      hide RtcRest;
      RtcWatchdogReceives(s, maxAttempts);
    }
  }

  lemma BeatTimerIsDisciplined(s: Sys, maxAttempts: nat)
    requires RtcInv(s, maxAttempts)
    ensures !(s.beatTimer.Armed? && s.generator.toTimer != [] && s.generator.toTimer[0].InitTimer?) && !s.beatTimer.Deaf?
  {
    hide Lags, Linear, TimerInv, VotesInv, Evidence, Tries, Apply, Outstanding;
    if s.beatTimer.Armed? && s.generator.toTimer != [] {
      hide RtcRest;
      RtcBeatTimerReceives(s, maxAttempts);
    }
  }

  /** At quiescence the protocol watchdog runs, in the present mode's name, exactly in the waiting modes;
      the heartbeat timer runs exactly in the phases, safe mode and Normal, at that mode's cadence. */
  lemma TimersAtQuiescence(s: Sys, maxAttempts: nat)
    requires Reachable(s, maxAttempts) && IsQuiet(s)
    ensures WellFormed(s.fsm)
    ensures var m := ModeOf(s.fsm);
            && s.timer == (if m in {HandshakeIn, RepeatIn, AlertPhase, DataPhase, MonitorPhase, HandshakeOut, RepeatOut, Safe}
                           then Armed(m) else Idle)
            && s.beatTimer == (if m in {AlertPhase, DataPhase, MonitorPhase} then Armed(PhaseBeat)
                               else if m == Safe then Armed(SafeBeat)
                               else if m == Steady then Armed(NormalBeat) else Idle)
            && m !in {Booting, CheckIn, CheckOut}
  {
    hide Reachable, RtcInv;
    ReachableInv(s, maxAttempts);
    WellFormedThroughout(s, maxAttempts);
    QuietFacts(s, maxAttempts);
  }

  // ---------------------------------------------------------------------------------------------
  // Votes.

  lemma VerdictFacts(s: Sys, maxAttempts: nat)
    requires RtcInv(s, maxAttempts) && s.task.toFsm != [] && IsVerdict(s.task.toFsm[0])
    ensures ModeOf(s.fsm) in {HandshakeIn, CheckIn, RepeatIn, HandshakeOut, CheckOut, RepeatOut}
    ensures |s.task.session.handshake| == |Cast(s.h.ballots)|
    ensures s.task.session.attempts == s.h.repeats
    ensures s.task.toFsm[0] == Verdict(|Cast(s.h.ballots)|, s.h.repeats, maxAttempts, s.h.lastTotal)
  {
    hide TimerInv, BeatInv, Tries, Verdict, Cast;
    LinearFacts(s);
    var m := ModeOf(s.fsm);
    assert Replay(s.task.session.state, []) == s.task.session.state;
    assert s.task.session.handshake.Keys == Cast(s.h.ballots);
    assert |s.task.session.handshake| == |s.task.session.handshake.Keys|;
  }

  /** Vote soundness and completeness: a verdict the machine is about to read approves the handshake if
      and only if the distinct senders of handshakes carrying the current epoch, received since this round
      was opened, reach the round's threshold of the hub count at the decision, and the number of repeat
      rounds so far is within both `maxAttempts` and 14. */
  lemma VotesDecide(s: Sys, maxAttempts: nat)
    requires Reachable(s, maxAttempts) && s.task.toFsm != [] && IsVerdict(s.task.toFsm[0])
    ensures var votes, a, total := |Cast(s.h.ballots)|, s.h.repeats, s.h.lastTotal;
            s.task.toFsm[0].ApproveQuorum? <==>
              && a <= maxAttempts && a <= 14
              && (if total == 0 then votes > 0
                  else 100 * votes >= (80 - 5 * (if a <= 1 then 0 else a - 1)) * total)
    ensures s.task.session.attempts == s.h.repeats
  {
    hide Reachable, RtcInv;
    ReachableInv(s, maxAttempts);
    VerdictFacts(s, maxAttempts);
    ApprovedIff(|Cast(s.h.ballots)|, s.h.repeats, maxAttempts, s.h.lastTotal);
  }

  // ---------------------------------------------------------------------------------------------
  // Retries.

  /** The repeat rounds of a handshake never exceed `maxAttempts + 1`, and when no action is outstanding
      the session's counter is that number. */
  lemma RepeatsAreBounded(s: Sys, maxAttempts: nat)
    requires Reachable(s, maxAttempts)
    ensures WellFormed(s.fsm)
    ensures ModeOf(s.fsm) !in {Safe, Steady} ==> s.h.repeats <= maxAttempts + 1
    ensures ModeOf(s.fsm) in {RepeatIn, RepeatOut} ==> s.h.repeats >= 1
    ensures Outstanding(s) == [] ==> s.task.session.attempts == s.h.repeats
  {
    hide Reachable, Linear, TimerInv, BeatInv, VotesInv, Evidence;
    ReachableInv(s, maxAttempts);
  }

  /** Round `maxAttempts + 1` is lost: its only way out is through the check into safe mode. */
  lemma LastRoundEndsInSafeMode(s: Sys, l: Label, maxAttempts: nat)
    requires Reachable(s, maxAttempts) && RtcEnabled(s, l) && s.h.repeats == maxAttempts + 1
    ensures WellFormed(s.fsm) && WellFormed(Apply(s, l, maxAttempts).fsm)
    ensures var m, m' := ModeOf(s.fsm), ModeOf(Apply(s, l, maxAttempts).fsm);
            && (m == RepeatIn ==> m' in {RepeatIn, CheckIn})
            && (m == CheckIn ==> m' in {CheckIn, Safe})
            && (m == RepeatOut ==> m' in {RepeatOut, CheckOut})
            && (m == CheckOut ==> m' in {CheckOut, Safe})
  {
    hide Reachable, RtcInv, Apply, Step;
    ReachableInv(s, maxAttempts);
    RtcKept(s, l, maxAttempts);
    WellFormedThroughout(s, maxAttempts);
    if l.RunFsm? {
      OnlyRunFsmMoves(s, l, maxAttempts);
      StepIsFlat(s.fsm, s.task.toFsm[0]);
      EventsInRounds(s, maxAttempts);
    } else {
      OnlyRunFsmMoves(s, l, maxAttempts);
    }
  }

  lemma EventsInRounds(s: Sys, maxAttempts: nat)
    requires RtcInv(s, maxAttempts) && s.task.toFsm != []
    ensures IsVerdict(s.task.toFsm[0]) && s.h.repeats == maxAttempts + 1 ==> s.task.toFsm[0].NotApproveNotAttempts?
  {
    hide RtcInv;
    if IsVerdict(s.task.toFsm[0]) {
      VerdictFacts(s, maxAttempts);
    }
  }

  lemma OnlyRunFsmMoves(s: Sys, l: Label, maxAttempts: nat)
    requires Enabled(s, l)
    ensures !l.RunFsm? ==> Apply(s, l, maxAttempts).fsm == s.fsm && Apply(s, l, maxAttempts).h.repeats == s.h.repeats
    ensures l.RunFsm? ==> Apply(s, l, maxAttempts).fsm ==
                          match Step(s.fsm, s.task.toFsm[0]) case Valid(n, _) => n case Invalid => s.fsm
  {
    hide Step, HandleAction, HandleCommand;
  }

  // ---------------------------------------------------------------------------------------------
  // Phase exits.

  /** A phase is left only on the expiry of its timer or because the distinct hubs that reported an empty
      queue since it was entered reach 80% of the hub count (safe mode: 70%). */
  lemma PhaseExitsAreJustified(s: Sys, maxAttempts: nat)
    requires Reachable(s, maxAttempts) && Enabled(s, RunFsm)
    ensures WellFormed(s.fsm) && WellFormed(Apply(s, RunFsm, maxAttempts).fsm)
    ensures var m, m', e := ModeOf(s.fsm), ModeOf(Apply(s, RunFsm, maxAttempts).fsm), s.task.toFsm[0];
            && (m in {AlertPhase, DataPhase, MonitorPhase} && m' != m ==>
                  e.Timeout? || (e.QuorumPhase? && Reaches(|Emptied(s.h.reports, false)|, s.h.lastTotal, 80)))
            && (m == Safe && m' != m ==>
                  e.Timeout? || (e.QuorumSafeMode? && Reaches(|Emptied(s.h.reports, true)|, s.h.lastTotal, 70)))
  {
    hide Reachable, RtcInv, Apply, Step, Emptied;
    ReachableInv(s, maxAttempts);
    WellFormedThroughout(s, maxAttempts);
    RtcKept(s, RunFsm, maxAttempts);
    OnlyRunFsmMoves(s, RunFsm, maxAttempts);
    StepIsFlat(s.fsm, s.task.toFsm[0]);
    ReportFacts(s, maxAttempts);
  }

  lemma ReportFacts(s: Sys, maxAttempts: nat)
    requires RtcInv(s, maxAttempts) && s.task.toFsm != []
    ensures ModeOf(s.fsm) in {AlertPhase, DataPhase, MonitorPhase} && s.task.toFsm[0].QuorumPhase? ==>
              Reaches(|Emptied(s.h.reports, false)|, s.h.lastTotal, 80)
    ensures ModeOf(s.fsm) == Safe && s.task.toFsm[0].QuorumSafeMode? ==>
              Reaches(|Emptied(s.h.reports, true)|, s.h.lastTotal, 70)
  {
    hide TimerInv, BeatInv, Tries, Verdict, Emptied, Cast;
    LinearFacts(s);
    assert Replay(s.task.session.state, []) == s.task.session.state;
    assert |s.task.session.empty| == |s.task.session.empty.Keys|;
  }

  /** A timeout in run-to-completion operation is always the expiry of the timer the present mode armed. */
  lemma TimeoutsBelongToTheirMode(s: Sys, maxAttempts: nat)
    requires Reachable(s, maxAttempts) && RtcEnabled(s, TimerFires)
    ensures WellFormed(s.fsm) && s.timer == Armed(ModeOf(s.fsm)) && s.task.toFsm == []
    ensures Apply(s, TimerFires, maxAttempts).task.toFsm == [Timeout]
  {
    hide Reachable, RtcInv;
    ReachableInv(s, maxAttempts);
    WellFormedThroughout(s, maxAttempts);
    RtcTimerFires(s, maxAttempts);
  }

  // ---------------------------------------------------------------------------------------------
  // Termination.

  /** Watchdog expiries that can still happen, at most, in mode `m` after `n` repeat rounds. */
  function Potential(m: Mode, n: nat, maxAttempts: nat): int {
    var last := LastChance(maxAttempts);
    match m
    case Booting | AwaitingEpoch | HandshakeIn => last + maxAttempts + 7
    case RepeatIn => if n <= last then last - n + maxAttempts + 7 else maxAttempts + 3 - n
    case CheckIn => if n <= last then last - n + maxAttempts + 6 else maxAttempts + 2 - n
    case AlertPhase => maxAttempts + 6
    case DataPhase => maxAttempts + 5
    case MonitorPhase => maxAttempts + 4
    case HandshakeOut => maxAttempts + 3
    case RepeatOut => maxAttempts + 3 - n
    case CheckOut => maxAttempts + 2 - n
    case Safe => 1
    case Steady => 0
  }

  function Fuel(s: Sys, maxAttempts: nat): int
    requires WellFormed(s.fsm)
  {
    Potential(ModeOf(s.fsm), s.h.repeats, maxAttempts) - (if s.task.toFsm == [Timeout] then 1 else 0)
  }

  lemma ArrowUsesPotential(m: Mode, e: Event, to: Mode, n: nat, maxAttempts: nat, votes: nat, total: nat)
    requires Target(m, e) == Some(to) && Tries(m, n, maxAttempts) && Hears(m, e)
    requires IsVerdict(e) ==> e == Verdict(votes, n, maxAttempts, total)
    ensures Potential(to, RepeatsAfter(m, to, n), maxAttempts) + (if e.Timeout? then 1 else 0) <= Potential(m, n, maxAttempts)
  {
    ApprovedIff(votes, n, maxAttempts, total);
  }

  lemma RunFsmFuel(s: Sys, maxAttempts: nat)
    requires RtcInv(s, maxAttempts) && s.task.toFsm != []
    ensures WellFormed(ApplyRunFsm(s).fsm)
    ensures Fuel(ApplyRunFsm(s), maxAttempts) <= Fuel(s, maxAttempts)
  {
    hide RtcInv, Step, Potential, CountRepeats;
    RtcWellFormed(s, maxAttempts);
    var e := s.task.toFsm[0];
    var s' := ApplyRunFsm(s);
    RtcEventFacts(s, maxAttempts);
    StepIsFlat(s.fsm, e);
    var votes, total := |s.task.session.handshake|, s.h.lastTotal;
    if Step(s.fsm, e).Valid? {
      ModesCountRepeats(s.fsm, s'.fsm, s.h.repeats);
      ArrowUsesPotential(ModeOf(s.fsm), e, ModeOf(s'.fsm), s.h.repeats, maxAttempts, votes, total);
    } else {
      assert !e.Timeout?;
    }
  }

  lemma RtcEventFacts(s: Sys, maxAttempts: nat)
    requires RtcInv(s, maxAttempts) && s.task.toFsm != []
    ensures var e, m := s.task.toFsm[0], ModeOf(s.fsm);
            && s.task.toFsm == [e] && Hears(m, e) && Tries(m, s.h.repeats, maxAttempts)
            && (IsVerdict(e) ==> e == Verdict(|s.task.session.handshake|, s.h.repeats, maxAttempts, s.h.lastTotal))
            && (e.Timeout? ==> Waits(m) && Target(m, e).Some?)
  {
    hide TimerInv, BeatInv, Cast;
    LinearFacts(s);
    if IsVerdict(s.task.toFsm[0]) {
      VerdictFacts(s, maxAttempts);
    }
  }

  /** No step adds fuel; a watchdog expiry burns one unit. */
  lemma FuelBurns(s: Sys, l: Label, maxAttempts: nat)
    requires RtcInv(s, maxAttempts) && RtcEnabled(s, l)
    ensures WellFormed(Apply(s, l, maxAttempts).fsm)
    ensures Fuel(Apply(s, l, maxAttempts), maxAttempts) + (if l.TimerFires? then 1 else 0) <= Fuel(s, maxAttempts)
  {
    hide RtcInv, HandleAction, HandleCommand, Step, Potential, Verdict, EventsOfCommand;
    RtcWellFormed(s, maxAttempts);
    var s' := Apply(s, l, maxAttempts);
    match l {
      case RunFsm => RunFsmFuel(s, maxAttempts);
      case DoAction(total) =>
        ActionSends(s.task, s.pending[0], maxAttempts, total);
        VerdictsAreVerdicts(|s.task.session.handshake|, s.task.session.attempts, maxAttempts, total);
        NoTimeoutAmidWork(s, maxAttempts);
      case Receive(c, total) =>
        CommandSends(s.task, c, total);
      case _ =>
    }
  }

  lemma RtcWellFormed(s: Sys, maxAttempts: nat)
    requires RtcInv(s, maxAttempts)
    ensures WellFormed(s.fsm)
  {
  }

  lemma NoTimeoutAmidWork(s: Sys, maxAttempts: nat)
    requires RtcInv(s, maxAttempts) && s.pending != []
    ensures s.task.toFsm == []
  {
    assert Outstanding(s) != [];
  }

  function Expiries(ls: seq<Label>): nat {
    if ls == [] then 0 else (if ls[0].TimerFires? then 1 else 0) + Expiries(ls[1..])
  }

  lemma {:induction false} FuelAlong(s: Sys, ls: seq<Label>, maxAttempts: nat)
    requires RtcInv(s, maxAttempts) && RtcSchedule(s, ls, maxAttempts)
    ensures RtcInv(RtcExecute(s, ls, maxAttempts), maxAttempts)
    ensures Fuel(RtcExecute(s, ls, maxAttempts), maxAttempts) + Expiries(ls) <= Fuel(s, maxAttempts)
    decreases |ls|
  {
    hide RtcInv, Apply, Enabled, Fuel;
    if ls != [] {
      RtcKept(s, ls[0], maxAttempts);
      FuelBurns(s, ls[0], maxAttempts);
      FuelAlong(Apply(s, ls[0], maxAttempts), ls[1..], maxAttempts);
    }
  }

  lemma FuelIsNatural(s: Sys, maxAttempts: nat)
    requires RtcInv(s, maxAttempts)
    ensures Fuel(s, maxAttempts) >= 0
    ensures IsQuiet(s) && Fuel(s, maxAttempts) == 0 ==> ModeOf(s.fsm) == Steady
  {
    hide TimerInv, BeatInv, VotesInv, Evidence;
    WaitingHasPotential(ModeOf(s.fsm), s.h.repeats, maxAttempts);
    if s.task.toFsm != [] {
      LinearFacts(s);
    }
  }

  lemma WaitingHasPotential(m: Mode, n: nat, maxAttempts: nat)
    requires Tries(m, n, maxAttempts)
    ensures Potential(m, n, maxAttempts) >= if m == Steady then 0 else 1
  {
  }

  /** Termination. Whatever messages arrive and whatever the hub counts are, the protocol watchdog
      expires at most `maxAttempts + min(maxAttempts, 14) + 7` times in a run (2 * maxAttempts + 7 with the
      usual settings); once it has, a quiescent gateway is in Normal. */
  lemma Termination(ls: seq<Label>, maxAttempts: nat)
    requires RtcSchedule(Init(), ls, maxAttempts)
    ensures Expiries(ls) <= maxAttempts + LastChance(maxAttempts) + 7
    ensures var s := RtcExecute(Init(), ls, maxAttempts);
            IsQuiet(s) && Expiries(ls) == maxAttempts + LastChance(maxAttempts) + 7 ==>
              WellFormed(s.fsm) && ModeOf(s.fsm) == Steady
    ensures maxAttempts <= 14 ==> LastChance(maxAttempts) == maxAttempts
  {
    hide RtcInv;
    RtcInit(maxAttempts);
    FuelAlong(Init(), ls, maxAttempts);
    var s := RtcExecute(Init(), ls, maxAttempts);
    FuelIsNatural(s, maxAttempts);
    RtcWellFormed(s, maxAttempts);
  }

  /** And it never gets stuck before: a quiescent gateway that has its epoch reply and is not in Normal is
      waiting under a running watchdog, whose expiry brings Normal closer. */
  lemma AlwaysProgress(s: Sys, maxAttempts: nat)
    requires Reachable(s, maxAttempts) && IsQuiet(s)
    ensures WellFormed(s.fsm)
    ensures ModeOf(s.fsm) == Steady || ModeOf(s.fsm) == AwaitingEpoch
            || (RtcEnabled(s, TimerFires) && WellFormed(Apply(s, TimerFires, maxAttempts).fsm)
                && Fuel(Apply(s, TimerFires, maxAttempts), maxAttempts) < Fuel(s, maxAttempts))
  {
    hide Reachable, RtcInv, Fuel, Apply;
    ReachableInv(s, maxAttempts);
    RtcWellFormed(s, maxAttempts);
    TimersAtQuiescence(s, maxAttempts);
    if ModeOf(s.fsm) != Steady && ModeOf(s.fsm) != AwaitingEpoch {
      FuelBurns(s, TimerFires, maxAttempts);
    }
  }
}
