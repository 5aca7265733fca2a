/** When Alert can be ended by a timeout of the opening handshake: exactly when a timeout exists, or can
    still arise, as the machine enters it; which is exactly when it was entered before the handshake timer
    had expired. Every interleaving of the tasks is considered. */
module FsmEarlyAlert {
  import opened Common
  import opened FsmDomain
  import opened FsmTask
  import opened Watchdog
  import opened FsmSystem
  import opened FsmAsync
  import opened FsmStale

  /** The machine is in Alert and the fsm task has not executed its entry action: no timer of Alert runs, no
      report counts. */
  ghost predicate Unentered(s: Sys) { Accounts(s) && ModeOf(s.fsm) == AlertPhase && !s.h.alertEntered }

  /** Alert has been left although its entry action is still to be executed. */
  ghost predicate EndedEarly(s: Sys) { WellFormed(s.fsm) && ModeOf(s.fsm) == DataPhase && !s.h.alertEntered }

  /** Timeouts of the opening handshake that exist or can still arise. */
  function Timeouts(s: Sys): nat
    requires WellFormed(s.fsm)
  {
    Tokens(LedgerOf(s))
  }

  // --- without a timeout ---------------------------------------------------------------------------------

  /** Untouched so far, or entered with nothing older than the entry that could end a phase. */
  ghost predicate Safely(s: Sys) {
    && Accounts(s)
    && (if s.h.alertEntered then s.h.recent <= |s.task.toFsm| && CountAdvances(Older(LedgerOf(s))) == 0
        else ModeOf(s.fsm) == AlertPhase && Timeouts(s) == 0)
  }

  lemma NoTokens(l: Ledger)
    requires Tokens(l) == 0
    ensures CountAdvances(l.sent) == 0 && !l.running && CountInits(l.commands) == 0 && ArmsBeforeAlert(l.queued) == 0
  {
  }

  lemma {:induction false} NoneAdvances(es: seq<Event>)
    ensures CountAdvances(es) == 0 <==> forall e :: e in es ==> !Advances(e)
  {
    if es != [] {
      NoneAdvances(es[1..]);
      assert es == [es[0]] + es[1..];
    }
  }

  lemma OlderOnlyShrinks(l: Ledger, l': Ledger)
    requires l.recent <= |l.sent| && l'.recent <= |l'.sent| && CountAdvances(Older(l)) == 0
    requires Older(l') == Older(l) || (Older(l) != [] && Older(l') == Older(l)[1..])
    ensures CountAdvances(Older(l')) == 0
  {
    hide Older;
    NoneAdvances(Older(l));
    NoneAdvances(Older(l'));
  }

  lemma OlderAfterPop(l: Ledger)
    requires l.sent != [] && l.recent <= |l.sent|
    ensures PopEvent(l).recent <= |PopEvent(l).sent|
    ensures Older(PopEvent(l)) == if Older(l) == [] then [] else Older(l)[1..]
  {
    PopSplits(l);
  }

  lemma EnteredStaysSafe(s: Sys, l: Label, maxAttempts: nat)
    requires Safely(s) && s.h.alertEntered && Enabled(s, l)
    ensures Safely(Apply(s, l, maxAttempts))
  {
    hide Balanced, HandleAction, HandleCommand, Step, CountRepeats, CountAdvances, ModeOf, WellFormed;
    AccountsKept(s, l, maxAttempts);
    var s' := Apply(s, l, maxAttempts);
    var a, b := LedgerOf(s), LedgerOf(s');
    match l {
      case RunFsm =>
        OlderAfterPop(a);
        assert b.sent == PopEvent(a).sent && b.recent == PopEvent(a).recent;
        assert Older(b) == Older(PopEvent(a));
        OlderOnlyShrinks(a, b);
      case DoAction(total) =>
        ActionSends(s.task, s.pending[0], maxAttempts, total);
        OlderWhenSent(a, b);
      case Receive(c, total) =>
        CommandSends(s.task, c, total);
        OlderWhenSent(a, b);
      case TimerFires => OlderWhenSent(a, b);
      case _ => OlderWhenSent(a, b);
    }
  }

  lemma OlderWhenSent(l: Ledger, l': Ledger)
    requires l.recent <= |l.sent| && l.sent <= l'.sent && l'.recent == l.recent + |l'.sent| - |l.sent|
    requires CountAdvances(Older(l)) == 0
    ensures l'.recent <= |l'.sent| && Older(l') == Older(l) && CountAdvances(Older(l')) == 0
  {
    assert Older(l') == Older(l);
  }

  /** One step of a machine waiting for its Alert entry. */
  ghost predicate Waits(s: Sys, s': Sys)
    requires WellFormed(s.fsm)
  {
    && WellFormed(s'.fsm)
    && (if s'.h.alertEntered then s'.h.recent == 0 && s'.task.toFsm == s.task.toFsm
        else (ModeOf(s'.fsm) == AlertPhase && Timeouts(s') <= Timeouts(s)) || (ModeOf(s'.fsm) == DataPhase && Timeouts(s) >= 1))
  }

  lemma WaitRunFsm(s: Sys, maxAttempts: nat)
    requires Unentered(s) && s.task.toFsm != []
    ensures Waits(s, Apply(s, RunFsm, maxAttempts))
  {
    PhaseReads(s, maxAttempts);
    var s' := Apply(s, RunFsm, maxAttempts);
    hide Step, Apply, ArmsBeforeAlert, Outstanding;
    if !Advances(s.task.toFsm[0]) {
      assert Timeouts(s') == Timeouts(s);
    }
  }

  lemma WaitAction(s: Sys, total: nat, maxAttempts: nat)
    requires Unentered(s) && s.pending != []
    ensures Waits(s, Apply(s, DoAction(total), maxAttempts))
  {
    hide HandleAction, Balanced, Verdict, TimerCommandsOf, Arms;
    var a := s.pending[0];
    var s' := Apply(s, DoAction(total), maxAttempts);
    OutstandingAfter(s, DoAction(total), maxAttempts);
    assert Outstanding(s)[0] == a && Outstanding(s)[1..] == Outstanding(s');
    ActionSends(s.task, a, maxAttempts, total);
    if a != OnEntryPhase(Alert) {
      var v := Verdict(|s.task.session.handshake|, s.task.session.attempts, maxAttempts, total);
      VerdictsAreVerdicts(|s.task.session.handshake|, s.task.session.attempts, maxAttempts, total);
      CountsAppend(s.task.toFsm, if CountsVotes(a) then [v] else [], s.task.toTimer, TimerCommandsOf(a));
      CommandCount(a);
      hide CountsVotes;
      assert Timeouts(s') == Timeouts(s);
    } else {
      RecentIsZero(LedgerOf(s));
    }
  }

  lemma WaitCommand(s: Sys, c: Command, total: nat, maxAttempts: nat)
    requires Unentered(s) && s.pending == []
    ensures Waits(s, Apply(s, Label.Receive(c, total), maxAttempts))
  {
    assert !InPhase(s.task.session.state);
    hide HandleCommand, EventsOfCommand, ArmsBeforeAlert, CountAdvances, CountInits, Balanced, InPhase;
    var s' := Apply(s, Label.Receive(c, total), maxAttempts);
    CommandSends(s.task, c, total);
    CommandEvents(s.task, c, total);
    var es := EventsOfCommand(s.task, c, total);
    var cancel := if QuorumPhase in es || QuorumSafeMode in es then [TimerCmd.StopTimer] else [];
    CountsAppend(s.task.toFsm, es, s.task.toTimer, cancel);
    NoInits(cancel);
    assert Outstanding(s') == Outstanding(s);
    hide Outstanding;
  }

  lemma NoInits(cancel: seq<TimerCmd<Mode>>)
    requires cancel == [] || cancel == [TimerCmd.StopTimer]
    ensures CountInits(cancel) == 0
  {
  }

  /** Moving a timeout from the watchdog into the channel, or taking a command, makes no new one. */
  lemma TimerTokens(l: Ledger)
    ensures l.running ==> Tokens(l.(sent := l.sent + [Timeout], running := false)) == Tokens(l)
    ensures l.commands != [] ==>
              && Tokens(l.(commands := l.commands[1..], running := false)) <= Tokens(l)
              && (l.commands[0].InitTimer? || l.running ==> Tokens(l.(commands := l.commands[1..], running := true)) <= Tokens(l))
  {
    hide ArmsBeforeAlert;
    CountsAppend(l.sent, [Timeout], [], []);
    assert CountAdvances([Timeout]) == 1 by { assert [Timeout][1..] == []; }
  }

  lemma WaitTimer(s: Sys, l: Label, maxAttempts: nat)
    requires Unentered(s) && Enabled(s, l) && (l.TimerFires? || l.WatchdogReceives?)
    ensures Waits(s, Apply(s, l, maxAttempts))
  {
    hide Balanced, Tokens;
    var s' := Apply(s, l, maxAttempts);
    assert Outstanding(s') == Outstanding(s);
    hide Outstanding;
    var x := LedgerOf(s);
    TimerTokens(x);
    if l.TimerFires? {
      assert LedgerOf(s').(recent := x.recent) == x.(sent := x.sent + [Timeout], running := false);
    } else {
      assert LedgerOf(s') == x.(commands := x.commands[1..], running := !s'.timer.Idle?);
    }
    RecentDoesNotCount(LedgerOf(s'), x.recent);
  }

  lemma RecentDoesNotCount(l: Ledger, recent: nat)
    ensures Tokens(l.(recent := recent)) == Tokens(l)
  {
  }

  lemma WaitStep(s: Sys, l: Label, maxAttempts: nat)
    requires Unentered(s) && Enabled(s, l)
    ensures Waits(s, Apply(s, l, maxAttempts))
  {
    hide Balanced, ArmsBeforeAlert, CountAdvances, CountInits;
    match l {
      case RunFsm => WaitRunFsm(s, maxAttempts);
      case DoAction(total) => WaitAction(s, total, maxAttempts);
      case Receive(c, total) => WaitCommand(s, c, total, maxAttempts);
      case TimerFires | WatchdogReceives => WaitTimer(s, l, maxAttempts);
      case _ => OutstandingAfter(s, l, maxAttempts);
    }
  }

  lemma StepStaysSafe(s: Sys, l: Label, maxAttempts: nat)
    requires Safely(s) && Enabled(s, l)
    ensures Safely(Apply(s, l, maxAttempts))
  {
    if s.h.alertEntered {
      EnteredStaysSafe(s, l, maxAttempts);
    } else {
      AccountsKept(s, l, maxAttempts);
      WaitStep(s, l, maxAttempts);
      var s' := Apply(s, l, maxAttempts);
      if s'.h.alertEntered {
        NoTokens(LedgerOf(s));
        assert Older(LedgerOf(s')) == s'.task.toFsm;
      }
      hide Apply, Tokens, CountAdvances, Balanced;
    }
  }

  /** Without a timeout of the handshake, no schedule leaves Alert before its entry action, nor ends it
      later by an event older than that action. */
  lemma {:induction false} NothingStale(s: Sys, ls: seq<Label>, maxAttempts: nat)
    requires Safely(s) && Schedule(s, ls, maxAttempts)
    ensures Safely(Execute(s, ls, maxAttempts))
    decreases |ls|
  {
    hide Safely, Apply, Enabled;
    if ls != [] {
      StepStaysSafe(s, ls[0], maxAttempts);
      NothingStale(Apply(s, ls[0], maxAttempts), ls[1..], maxAttempts);
    }
  }

  // --- with one ------------------------------------------------------------------------------------------------

  ghost predicate EndsEarly(s: Sys, ls: seq<Label>, maxAttempts: nat) {
    Schedule(s, ls, maxAttempts) && EndedEarly(Execute(s, ls, maxAttempts))
  }

  lemma EarlierStep(s: Sys, l: Label, ls: seq<Label>, maxAttempts: nat)
    requires Enabled(s, l) && EndsEarly(Apply(s, l, maxAttempts), ls, maxAttempts)
    ensures EndsEarly(s, [l] + ls, maxAttempts)
  {
    hide Apply, Enabled, Schedule, Execute, EndedEarly;
    Prepend(s, l, ls, maxAttempts);
  }

  ghost predicate Waiting(s: Sys) { WellFormed(s.fsm) && ModeOf(s.fsm) == AlertPhase && !s.h.alertEntered }

  lemma EndNow(s: Sys, maxAttempts: nat) returns (ls: seq<Label>)
    requires Waiting(s) && TimeoutComing(s)
    ensures EndsEarly(s, ls, maxAttempts)
  {
    hide TimeoutComing, Schedule, Execute;
    ls := EndByTimeout(s, maxAttempts);
  }

  /** Executing an action other than the Alert entry, or taking a vector. */
  lemma Proceed(s: Sys, maxAttempts: nat) returns (l: Label)
    requires Waiting(s) && ArmsBeforeAlert(Outstanding(s)) >= 1
    ensures Enabled(s, l) && Waiting(Apply(s, l, maxAttempts))
    ensures var s' := Apply(s, l, maxAttempts);
            && (TimeoutComing(s') || ArmsBeforeAlert(Outstanding(s')) >= 1)
            && |Outstanding(s')| + |s'.actions| < |Outstanding(s)| + |s.actions|
  {
    if s.pending == [] {
      l := TakeVector;
      OutstandingAfter(s, l, maxAttempts);
    } else {
      l := DoAction(0);
      var a := s.pending[0];
      OutstandingAfter(s, l, maxAttempts);
      assert Outstanding(s)[0] == a && Outstanding(s)[1..] == Outstanding(Apply(s, l, maxAttempts));
      hide Outstanding, HandleAction, TimerCommandsOf, Verdict;
      ActionSends(s.task, a, maxAttempts, 0);
      CommandCount(a);
      CountsAppend([], [], s.task.toTimer, TimerCommandsOf(a));
    }
  }

  lemma {:induction false} ProceedThenEnd(s: Sys, maxAttempts: nat) returns (ls: seq<Label>)
    requires Waiting(s) && (TimeoutComing(s) || ArmsBeforeAlert(Outstanding(s)) >= 1)
    ensures EndsEarly(s, ls, maxAttempts)
    decreases |Outstanding(s)| + |s.actions|
  {
    hide *;
    if TimeoutComing(s) {
      ls := EndNow(s, maxAttempts);
    } else {
      var l := Proceed(s, maxAttempts);
      var rest := ProceedThenEnd(Apply(s, l, maxAttempts), maxAttempts);
      EarlierStep(s, l, rest, maxAttempts);
      ls := [l] + rest;
    }
  }

  /** Exactly when Alert can be left before its entry action is executed. */
  lemma AlertEndsEarlyIff(s: Sys, maxAttempts: nat)
    requires Unentered(s)
    ensures (exists ls :: EndsEarly(s, ls, maxAttempts)) <==> Timeouts(s) >= 1
  {
    if Timeouts(s) >= 1 {
      var ls := ProceedThenEnd(s, maxAttempts);
    } else {
      forall ls ensures !EndsEarly(s, ls, maxAttempts) {
        if Schedule(s, ls, maxAttempts) {
          NothingStale(s, ls, maxAttempts);
        }
      }
    }
  }

  // --- and when there is one ------------------------------------------------------------------------------------

  /** Before Alert nothing stops the watchdog, no phase can be ended, and safe mode is not near. */
  ghost predicate Undisturbed(l: Ledger) {
    && TimerCmd.StopTimer !in l.commands && QuorumPhase !in l.sent
    && Action.StopTimer !in l.queued && OnEntrySafeMode !in l.queued
    && (forall a :: a in l.queued ==> !a.OnEntryPhase?)
    && !InPhase(l.session) && l.session != StateOfSession.SafeMode
  }

  /** An opening round that waits has its timeout: queued, running or sent. */
  ghost predicate RoundHasTimeout(l: Ledger) {
    && (BeforeAlert(l.mode) ==> !l.entered && Undisturbed(l))
    && (l.mode == HandshakeIn || l.mode == RepeatIn ==> Tokens(l) >= 1)
  }

  ghost predicate Opened(s: Sys) { Accounts(s) && RoundHasTimeout(LedgerOf(s)) }

  lemma OpeningArrow(l: Ledger, e: Event, to: Mode, acts: seq<Action>)
    requires Balanced(l) && RoundHasTimeout(l) && l.sent != [] && e == l.sent[0] && Target(l.mode, e) == Some(to)
    requires acts == Emitted(l.mode, e, to) && EmissionFacts(l.mode, to, acts) && BeforeAlert(l.mode)
    ensures RoundHasTimeout(PopEvent(l).(mode := to, queued := l.queued + acts))
    ensures to == AlertPhase ==>
              (Tokens(PopEvent(l).(mode := to, queued := l.queued + acts)) >= 1 <==> l.mode != CheckIn)
  {
    var l' := PopEvent(l).(mode := to, queued := l.queued + acts);
    ActionsAppend(l.queued, acts);
    assert OnEntryPhase(Alert) !in l.queued;
    assert CountAdvances(l.sent) == (if Advances(e) then 1 else 0) + CountAdvances(l'.sent);
    if BeforeAlert(to) { EmissionUndisturbed(l.mode, e, to); }
    hide Emitted, EmissionFacts, ArmsBeforeAlert, CountAdvances, CountInits;
    if BeforeAlert(to) || to == AlertPhase {
      assert Tokens(l') == Tokens(l) - (if Advances(e) then 1 else 0) + (if l.mode != to && to in {HandshakeIn, RepeatIn} then 1 else 0);
    }
  }

  lemma EmissionUndisturbed(m: Mode, e: Event, to: Mode)
    requires BeforeAlert(to) && ArrowShape(m, to)
    ensures var acts := Emitted(m, e, to);
            Action.StopTimer !in acts && OnEntrySafeMode !in acts && forall a :: a in acts ==> !a.OnEntryPhase?
  {
  }

  lemma OpenedRunFsm(s: Sys, maxAttempts: nat)
    requires Opened(s) && s.task.toFsm != []
    ensures Opened(Apply(s, RunFsm, maxAttempts))
    ensures BeforeAlert(ModeOf(s.fsm)) && ModeOf(Apply(s, RunFsm, maxAttempts).fsm) == AlertPhase ==>
              Unentered(Apply(s, RunFsm, maxAttempts))
              && (Timeouts(Apply(s, RunFsm, maxAttempts)) >= 1 <==> ModeOf(s.fsm) != CheckIn)
  {
    hide Step, Balanced, Emitted, EmissionFacts, CountRepeats, RoundHasTimeout, Tokens;
    AccountsKept(s, RunFsm, maxAttempts);
    var e, s', l := s.task.toFsm[0], ApplyRunFsm(s), LedgerOf(s);
    StepIsFlat(s.fsm, e);
    if Step(s.fsm, e).Valid? {
      var to := ModeOf(s'.fsm);
      OutstandingAfter(s, RunFsm, maxAttempts);
      assert ArrowShape(l.mode, to) by { ArrowIsShaped(l.mode, e, to); }
      EmittedAccounts(l.mode, e, to);
      assert LedgerOf(s') == PopEvent(l).(mode := to, queued := l.queued + Emitted(l.mode, e, to));
      if BeforeAlert(l.mode) {
        OpeningArrow(l, e, to, Emitted(l.mode, e, to));
        BeforeMeansUnentered(l);
      } else {
        LaterModes(l.mode, e, to);
        NotOpening(LedgerOf(s'));
      }
    } else {
      assert LedgerOf(s') == PopEvent(l);
      RejectedInOpening(l, e);
    }
  }

  lemma LaterModes(m: Mode, e: Event, to: Mode)
    requires Target(m, e) == Some(to) && !BeforeAlert(m)
    ensures !BeforeAlert(to)
  {
  }

  lemma NotOpening(l: Ledger)
    requires !BeforeAlert(l.mode)
    ensures RoundHasTimeout(l)
  {
  }

  lemma BeforeMeansUnentered(l: Ledger)
    requires RoundHasTimeout(l) && BeforeAlert(l.mode)
    ensures !l.entered
  {
  }

  lemma RejectedInOpening(l: Ledger, e: Event)
    requires RoundHasTimeout(l) && l.sent != [] && e == l.sent[0] && Target(l.mode, e) == None
    ensures RoundHasTimeout(PopEvent(l))
  {
    if l.mode == HandshakeIn || l.mode == RepeatIn {
      assert !Advances(e);
      assert CountAdvances(l.sent) == CountAdvances(PopEvent(l).sent);
    }
    hide CountAdvances, CountInits, ArmsBeforeAlert;
  }

  lemma OpenedAction(l: Ledger, es: seq<Event>, st: StateOfSession)
    requires RoundHasTimeout(l) && BeforeAlert(l.mode) && l.queued != []
    requires QuorumPhase !in es && CountAdvances(es) == 0 && st == StateAfter(l.session, l.queued[0])
    ensures RoundHasTimeout(Send(l, es).(commands := l.commands + TimerCommandsOf(l.queued[0]),
                                         queued := l.queued[1..], session := st))
  {
    var a := l.queued[0];
    assert a in l.queued;
    CountsAppend(l.sent, es, l.commands, TimerCommandsOf(a));
    CommandCount(a);
    assert TimerCmd.StopTimer !in TimerCommandsOf(a);
    hide TimerCommandsOf;
  }

  lemma OpenedDoAction(s: Sys, total: nat, maxAttempts: nat)
    requires Opened(s) && s.pending != []
    ensures Opened(Apply(s, DoAction(total), maxAttempts))
  {
    hide HandleAction, Balanced, Verdict, StateAfter, TimerCommandsOf, RoundHasTimeout;
    var l := DoAction(total);
    AccountsKept(s, l, maxAttempts);
    var a, s', x := s.pending[0], Apply(s, l, maxAttempts), LedgerOf(s);
    if BeforeAlert(x.mode) {
      OutstandingAfter(s, l, maxAttempts);
      assert x.queued[0] == a && x.queued[1..] == Outstanding(s');
      ActionSends(s.task, a, maxAttempts, total);
      ExecutingIsReplaying(s.task, a, maxAttempts, total);
      VerdictsAreVerdicts(|s.task.session.handshake|, s.task.session.attempts, maxAttempts, total);
      var es := s'.task.toFsm[|s.task.toFsm|..];
      assert s'.task.toFsm == s.task.toFsm + es;
      FirstIsNoPhase(x);
      RecentIsZero(x);
      OpenedAction(x, es, s'.task.session.state);
      assert LedgerOf(s') == Send(x, es).(commands := x.commands + TimerCommandsOf(a), queued := x.queued[1..],
                                          session := s'.task.session.state);
    } else {
      NotOpening(LedgerOf(s'));
    }
  }

  lemma FirstIsNoPhase(l: Ledger)
    requires RoundHasTimeout(l) && BeforeAlert(l.mode) && l.queued != []
    ensures !l.queued[0].OnEntryPhase? && !l.entered
  {
    assert l.queued[0] in l.queued;
  }

  lemma OpenedReceive(s: Sys, c: Command, total: nat, maxAttempts: nat)
    requires Opened(s) && s.pending == []
    ensures Opened(Apply(s, Label.Receive(c, total), maxAttempts))
  {
    hide HandleCommand, Balanced, EventsOfCommand;
    AccountsKept(s, Label.Receive(c, total), maxAttempts);
    var s', x := Apply(s, Label.Receive(c, total), maxAttempts), LedgerOf(s);
    CommandSends(s.task, c, total);
    CommandsKeepSession(s.task, c, total);
    CommandEvents(s.task, c, total);
    if BeforeAlert(x.mode) { NoQuorums(s.task, c, total); }
    CountsAppend(s.task.toFsm, EventsOfCommand(s.task, c, total), [], []);
    assert Outstanding(s') == Outstanding(s);
    hide ArmsBeforeAlert, CountAdvances, CountInits, Outstanding;
  }

  lemma NoQuorums(t: Task, c: Command, total: nat)
    requires !InPhase(t.session.state) && t.session.state != StateOfSession.SafeMode
    ensures QuorumPhase !in EventsOfCommand(t, c, total) && QuorumSafeMode !in EventsOfCommand(t, c, total)
  {
  }

  lemma TimerInOpening(l: Ledger)
    requires Balanced(l) && RoundHasTimeout(l) && BeforeAlert(l.mode)
    ensures l.running ==> RoundHasTimeout(l.(sent := l.sent + [Timeout], running := false))
    ensures l.commands != [] ==>
              && l.commands[0].InitTimer? && !l.running
              && RoundHasTimeout(l.(commands := l.commands[1..], running := true))
  {
    hide ArmsBeforeAlert, EmissionFacts;
    TimerTokens(l);
    if l.commands != [] {
      StartMeetsNone(l);
      assert CountInits(l.commands) == 1 + CountInits(l.commands[1..]);
    }
    hide CountInits, CountAdvances;
  }

  lemma RecentIsIdle(l: Ledger, recent: nat)
    ensures RoundHasTimeout(l.(recent := recent)) <==> RoundHasTimeout(l)
  {
    RecentDoesNotCount(l, recent);
    hide Tokens;
  }

  lemma OpenedTimer(s: Sys, l: Label, maxAttempts: nat)
    requires Opened(s) && Enabled(s, l) && (l.TimerFires? || l.WatchdogReceives?)
    ensures Opened(Apply(s, l, maxAttempts))
  {
    hide Balanced, RoundHasTimeout;
    AccountsKept(s, l, maxAttempts);
    var s', x := Apply(s, l, maxAttempts), LedgerOf(s);
    assert Outstanding(s') == Outstanding(s);
    hide Outstanding;
    if BeforeAlert(x.mode) {
      TimerInOpening(x);
      if l.TimerFires? {
        assert LedgerOf(s').(recent := x.recent) == x.(sent := x.sent + [Timeout], running := false);
      } else {
        assert LedgerOf(s') == x.(commands := x.commands[1..], running := true);
      }
      RecentIsIdle(LedgerOf(s'), x.recent);
    } else {
      NotOpening(LedgerOf(s'));
    }
  }

  /** In the opening handshake the next command is a start, and no timer is running. */
  lemma StartMeetsNone(l: Ledger)
    requires Balanced(l) && RoundHasTimeout(l) && BeforeAlert(l.mode) && l.commands != []
    ensures l.commands[0].InitTimer? && !l.running
  {
    assert l.commands[0] in l.commands;
  }

  lemma OpenedKept(s: Sys, l: Label, maxAttempts: nat)
    requires Opened(s) && Enabled(s, l)
    ensures Opened(Apply(s, l, maxAttempts))
  {
    hide Balanced, RoundHasTimeout, HandleAction, HandleCommand, Step;
    match l {
      case RunFsm => OpenedRunFsm(s, maxAttempts);
      case DoAction(total) => OpenedDoAction(s, total, maxAttempts);
      case Receive(c, total) => OpenedReceive(s, c, total, maxAttempts);
      case TimerFires | WatchdogReceives => OpenedTimer(s, l, maxAttempts);
      case _ =>
        AccountsKept(s, l, maxAttempts);
        OutstandingAfter(s, l, maxAttempts);
        assert LedgerOf(Apply(s, l, maxAttempts)) == LedgerOf(s);
    }
  }

  lemma {:induction false} OpenedAlong(s: Sys, ls: seq<Label>, maxAttempts: nat)
    requires Opened(s) && Schedule(s, ls, maxAttempts)
    ensures Opened(Execute(s, ls, maxAttempts))
    decreases |ls|
  {
    hide Opened, Apply, Enabled;
    if ls != [] {
      OpenedKept(s, ls[0], maxAttempts);
      OpenedAlong(Apply(s, ls[0], maxAttempts), ls[1..], maxAttempts);
    }
  }

  lemma InitOpened()
    ensures Opened(Init())
  {
    InitAsync();
    var s := Init();
    assert Outstanding(s) == [OnEntryBalance(InitBalanceMode)] by {
      assert s.actions[1..] == [] && Flatten(s.actions) == s.actions[0] + Flatten<Action>([]);
    }
    hide Accounts;
  }

  /** In every run: the moment the machine enters Alert decides. If the handshake timer's expiry has been
      read (the approval came from the check) nothing can end Alert early; if not, some schedule does. */
  lemma AlertEndsEarlyIffApprovedEarly(ls: seq<Label>, maxAttempts: nat)
    requires Schedule(Init(), ls, maxAttempts)
    requires var s := Execute(Init(), ls, maxAttempts);
             && Enabled(s, RunFsm) && WellFormed(s.fsm) && WellFormed(Apply(s, RunFsm, maxAttempts).fsm)
             && ModeOf(s.fsm) != AlertPhase && ModeOf(Apply(s, RunFsm, maxAttempts).fsm) == AlertPhase
    ensures var s := Execute(Init(), ls, maxAttempts);
            (exists more :: EndsEarly(Apply(s, RunFsm, maxAttempts), more, maxAttempts)) <==> ModeOf(s.fsm) != CheckIn
  {
    InitOpened();
    OpenedAlong(Init(), ls, maxAttempts);
    var s := Execute(Init(), ls, maxAttempts);
    EntersFromOpening(s, maxAttempts);
    OpenedRunFsm(s, maxAttempts);
    hide Schedule, Execute, Opened, Apply, EndsEarly, Unentered, Timeouts;
    AlertEndsEarlyIff(Apply(s, RunFsm, maxAttempts), maxAttempts);
  }

  lemma EntersFromOpening(s: Sys, maxAttempts: nat)
    requires Enabled(s, RunFsm) && WellFormed(s.fsm) && WellFormed(Apply(s, RunFsm, maxAttempts).fsm)
    requires ModeOf(s.fsm) != AlertPhase && ModeOf(Apply(s, RunFsm, maxAttempts).fsm) == AlertPhase
    ensures BeforeAlert(ModeOf(s.fsm))
  {
    StepIsFlat(s.fsm, s.task.toFsm[0]);
    hide Step, Emitted;
  }
}
