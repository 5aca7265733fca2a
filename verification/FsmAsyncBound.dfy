/** How often the protocol watchdog can expire when the tasks are interleaved in any way: stale timeouts let
    the machine run ahead of the session's attempt counter, but only by a constant. */
module FsmAsyncBound {
  import opened Common
  import opened FsmDomain
  import opened FsmTask
  import opened Watchdog
  import opened FsmSystem
  import opened FsmAsync
  import opened FsmStale
  import opened FsmBooks
  import opened FsmRtcTheorems

  ghost predicate Kept(s: Sys, maxAttempts: nat) { Lags(s) && Accounts(s) && Sound(BooksOf(s), maxAttempts) }

  /** What a state owes and what it has used, against what its mode allows. */
  function Room(b: Books): int { Starts(b.mode, b.opening, b.n) - Owed(b) }

  lemma AcceptedHistory(s: Sys, maxAttempts: nat)
    requires WellFormed(s.fsm) && s.task.toFsm != [] && Step(s.fsm, s.task.toFsm[0]).Valid?
    requires WellFormed(Apply(s, RunFsm, maxAttempts).fsm)
    ensures var s', m := Apply(s, RunFsm, maxAttempts), ModeOf(s.fsm);
            && s'.h.repeats == RepeatsAfter(m, ModeOf(s'.fsm), s.h.repeats)
            && s'.h.opening == OpeningAfter(m, ModeOf(s'.fsm), s.h.repeats, s.h.opening)
  {
    hide Step;
    ModesCountRepeats(s.fsm, Apply(s, RunFsm, maxAttempts).fsm, s.h.repeats);
    hide CountRepeats, RepeatsAfter;
  }

  lemma RejectedHistory(s: Sys, maxAttempts: nat)
    requires s.task.toFsm != [] && Step(s.fsm, s.task.toFsm[0]).Invalid?
    ensures Apply(s, RunFsm, maxAttempts).h.opening == s.h.opening
  {
    hide Step;
  }

  lemma CleanMonitor(s: Sys)
    requires Accounts(s)
    ensures WellFormed(s.fsm)
    ensures ModeOf(s.fsm) == MonitorPhase ==> NoVoteCounts(Outstanding(s))
  {
    hide Balanced, Outstanding;
    if ModeOf(s.fsm) == MonitorPhase { MonitorIsClean(LedgerOf(s)); }
  }

  lemma RunFsmSound(s: Sys, maxAttempts: nat)
    requires Accounts(s) && s.task.toFsm != [] && Sound(BooksOf(s), maxAttempts)
    ensures var s' := Apply(s, RunFsm, maxAttempts);
            WellFormed(s'.fsm) && Sound(BooksOf(s'), maxAttempts) && Room(BooksOf(s')) >= Room(BooksOf(s))
  {
    hide Accounts, Sound, Step, Apply, Outstanding, Owed, Starts, Target, Emitted, NoVoteCounts, RepeatsAfter, OpeningAfter;
    CleanMonitor(s);
    var e, s', b := s.task.toFsm[0], Apply(s, RunFsm, maxAttempts), BooksOf(s);
    if Step(s.fsm, e).Valid? {
      Accepted(s, maxAttempts);
      AcceptedHistory(s, maxAttempts);
      ArrowSound(b, e, ModeOf(s'.fsm), maxAttempts);
      assert BooksOf(s') == Read(b, ModeOf(s'.fsm), Emitted(b.mode, e, ModeOf(s'.fsm)));
    } else {
      Rejected(s, maxAttempts);
      RejectedHistory(s, maxAttempts);
      RejectionSound(b, maxAttempts);
      assert BooksOf(s') == b.(sent := b.sent[1..]);
      OwedIgnoresEvents(b, b.sent[1..]);
    }
  }

  lemma OwedIgnoresEvents(b: Books, sent: seq<Event>)
    ensures Owed(b.(sent := sent)) == Owed(b)
  {
  }

  lemma VerdictSays(votes: nat, attempts: nat, maxAttempts: nat, total: nat, a: Action)
    ensures Says(a, if CountsVotes(a) then [Verdict(votes, attempts, maxAttempts, total)] else [], attempts, maxAttempts)
  {
  }

  lemma DoActionSound(s: Sys, total: nat, maxAttempts: nat)
    requires Lags(s) && s.pending != [] && Sound(BooksOf(s), maxAttempts)
    ensures var s' := Apply(s, DoAction(total), maxAttempts);
            WellFormed(s'.fsm) && Sound(BooksOf(s'), maxAttempts) && Room(BooksOf(s')) >= Room(BooksOf(s))
  {
    hide Sound, HandleAction, Outstanding, Owed, Starts, Verdict, CountsVotes, TimerCommandsOf, BeatActionsOf, Replay, Says;
    var a, s', b := s.pending[0], Apply(s, DoAction(total), maxAttempts), BooksOf(s);
    OutstandingAfter(s, DoAction(total), maxAttempts);
    ActionSends(s.task, a, maxAttempts, total);
    var votes, n := |s.task.session.handshake|, s.task.session.attempts;
    var es := if CountsVotes(a) then [Verdict(votes, n, maxAttempts, total)] else [];
    VerdictSays(votes, n, maxAttempts, total, a);
    assert b.queued[0] == a && b.queued[1..] == Outstanding(s');
    DoSound(b, es, n, maxAttempts);
    assert BooksOf(s') == Do(b, es);
    hide Lags, ReplayAttempts;
    SameStarts(b, Do(b, es));
  }

  lemma SameStarts(b: Books, b': Books)
    requires b'.mode == b.mode && b'.opening == b.opening && b'.n == b.n
    ensures Starts(b'.mode, b'.opening, b'.n) == Starts(b.mode, b.opening, b.n)
  {
  }

  lemma OneEventAtMost(t: Task, c: Command, total: nat)
    ensures var es := EventsOfCommand(t, c, total);
            |es| <= 1 && (es != [] ==> !IsVerdict(es[0]) && es[0] != Timeout)
  {
  }

  lemma ReceiveSound(s: Sys, c: Command, total: nat, maxAttempts: nat)
    requires WellFormed(s.fsm) && s.pending == [] && Sound(BooksOf(s), maxAttempts)
    ensures var s' := Apply(s, Label.Receive(c, total), maxAttempts);
            WellFormed(s'.fsm) && Sound(BooksOf(s'), maxAttempts) && Room(BooksOf(s')) >= Room(BooksOf(s))
  {
    hide Sound, HandleCommand, EventsOfCommand, Owed, Starts;
    var s', b := Apply(s, Label.Receive(c, total), maxAttempts), BooksOf(s);
    OutstandingAfter(s, Label.Receive(c, total), maxAttempts);
    hide Outstanding;
    CommandSends(s.task, c, total);
    OneEventAtMost(s.task, c, total);
    var es := EventsOfCommand(s.task, c, total);
    var cancel := if QuorumPhase in es || QuorumSafeMode in es then [TimerCmd.StopTimer] else [];
    CancelSound(b, cancel, maxAttempts);
    var b1 := b.(commands := b.commands + cancel);
    if es != [] {
      assert es == [es[0]];
      HeardSound(b1, es[0], maxAttempts);
      assert BooksOf(s') == b1.(sent := b1.sent + [es[0]], running := b1.running && es[0] != Timeout);
    } else {
      assert BooksOf(s') == b1;
    }
  }

  lemma FiringSound(s: Sys, maxAttempts: nat)
    requires WellFormed(s.fsm) && !s.timer.Idle? && Sound(BooksOf(s), maxAttempts)
    ensures var s' := Apply(s, TimerFires, maxAttempts);
            WellFormed(s'.fsm) && Sound(BooksOf(s'), maxAttempts) && Room(BooksOf(s')) >= Room(BooksOf(s)) + 1
  {
    var s', b := Apply(s, TimerFires, maxAttempts), BooksOf(s);
    assert Outstanding(s') == Outstanding(s);
    hide Sound, Outstanding, Owed, Starts;
    HeardSound(b, Timeout, maxAttempts);
    assert BooksOf(s') == b.(sent := b.sent + [Timeout], running := b.running && Timeout != Timeout);
  }

  lemma WatchdogSound(s: Sys, maxAttempts: nat)
    requires WellFormed(s.fsm) && Enabled(s, WatchdogReceives) && Sound(BooksOf(s), maxAttempts)
    ensures var s' := Apply(s, WatchdogReceives, maxAttempts);
            WellFormed(s'.fsm) && Sound(BooksOf(s'), maxAttempts) && Room(BooksOf(s')) >= Room(BooksOf(s))
  {
    var s', b := Apply(s, WatchdogReceives, maxAttempts), BooksOf(s);
    assert Outstanding(s') == Outstanding(s);
    hide Sound, Outstanding, Owed, Starts;
    TakenSound(b, !s'.timer.Idle?, maxAttempts);
    assert BooksOf(s') == b.(commands := b.commands[1..], running := !s'.timer.Idle?);
  }

  lemma OtherStepSound(s: Sys, l: Label, maxAttempts: nat)
    requires Enabled(s, l) && WellFormed(s.fsm)
    requires l in {TakeVector, GeneratorObeys, BeatTimerReceives, GeneratorBeats, BeatTimerFires}
    ensures var s' := Apply(s, l, maxAttempts); WellFormed(s'.fsm) && BooksOf(s') == BooksOf(s)
  {
    OutstandingAfter(s, l, maxAttempts);
    hide Outstanding, Obey, BeatOnce;
  }

  /** Every step of every task keeps the books, and only an expiry uses room. */
  lemma SoundKept(s: Sys, l: Label, maxAttempts: nat)
    requires Kept(s, maxAttempts) && Enabled(s, l)
    ensures Kept(Apply(s, l, maxAttempts), maxAttempts)
    ensures Room(BooksOf(Apply(s, l, maxAttempts))) >= Room(BooksOf(s)) + if l.TimerFires? then 1 else 0
  {
    hide Lags, Accounts, Sound, Room, Apply, Enabled;
    LagKept(s, l, maxAttempts);
    AccountsKept(s, l, maxAttempts);
    LagsIsWellFormed(s);
    match l {
      case RunFsm => NeedsEvent(s); RunFsmSound(s, maxAttempts);
      case DoAction(total) => NeedsAction(s, total); DoActionSound(s, total, maxAttempts);
      case Receive(c, total) => NeedsRest(s, c, total); ReceiveSound(s, c, total, maxAttempts);
      case TimerFires => NeedsTimer(s); FiringSound(s, maxAttempts);
      case WatchdogReceives => WatchdogSound(s, maxAttempts);
      case _ => OtherStepSound(s, l, maxAttempts);
    }
  }

  lemma NeedsEvent(s: Sys)
    requires Enabled(s, RunFsm)
    ensures s.task.toFsm != []
  {
  }

  lemma NeedsAction(s: Sys, total: nat)
    requires Enabled(s, DoAction(total))
    ensures s.pending != []
  {
  }

  lemma NeedsRest(s: Sys, c: Command, total: nat)
    requires Enabled(s, Label.Receive(c, total))
    ensures s.pending == []
  {
  }

  lemma NeedsTimer(s: Sys)
    requires Enabled(s, TimerFires)
    ensures !s.timer.Idle?
  {
  }

  lemma {:induction false} SoundAlong(s: Sys, ls: seq<Label>, maxAttempts: nat)
    requires Kept(s, maxAttempts) && Schedule(s, ls, maxAttempts)
    ensures Kept(Execute(s, ls, maxAttempts), maxAttempts)
    ensures Room(BooksOf(Execute(s, ls, maxAttempts))) >= Room(BooksOf(s)) + Expiries(ls)
    decreases |ls|
  {
    hide Kept, Room, Apply, Enabled;
    if ls != [] {
      SoundKept(s, ls[0], maxAttempts);
      SoundAlong(Apply(s, ls[0], maxAttempts), ls[1..], maxAttempts);
    }
  }

  /** Before anything is sent or started. */
  predicate Quiet(b: Books) {
    b.mode == AwaitingEpoch && b.n == 0 && b.opening == 0 && b.sent == [] && Pending(b) == 0
  }

  lemma InitQuiet()
    ensures WellFormed(Init().fsm) && Quiet(BooksOf(Init()))
  {
    var s := Init();
    assert Outstanding(s) == [OnEntryBalance(InitBalanceMode)] by {
      assert s.actions[1..] == [];
      assert Flatten(s.actions) == s.actions[0] + Flatten<Action>([]);
    }
    var b := BooksOf(s);
    assert b.queued[1..] == [];
    hide Outstanding;
  }

  lemma QuietIsSound(b: Books, maxAttempts: nat)
    requires Quiet(b)
    ensures Sound(b, maxAttempts) && Room(b) == 0
  {
    assert !Late(b.sent, NotApproveQuorum) && !Late(b.sent, ApproveQuorum);
    hide Ordered, OpeningFirst, Late, CountRounds, Ahead, CountArms, CountInits, CountTimeouts;
  }

  lemma InitSound(maxAttempts: nat)
    ensures Kept(Init(), maxAttempts) && Room(BooksOf(Init())) == 0
  {
    InitAsync();
    InitQuiet();
    hide Lags, Accounts, Init, BooksOf, Quiet, Sound, Room;
    QuietIsSound(BooksOf(Init()), maxAttempts);
  }

  /** In every interleaving the opening handshake has at most `maxAttempts + 1` repeat rounds, one more than an
      approval can still be for when it leads on, and the closing one at most `maxAttempts + 5`: stale timeouts
      of the phases can take the machine four rounds further than its session counts. */
  lemma RoundsAreBounded(ls: seq<Label>, maxAttempts: nat)
    requires Schedule(Init(), ls, maxAttempts)
    ensures var s := Execute(Init(), ls, maxAttempts);
            && WellFormed(s.fsm)
            && s.h.opening <= LastChance(maxAttempts) + 1
            && s.h.repeats <= if BeforeAlert(ModeOf(s.fsm)) then maxAttempts + 1
                              else if IsPhase(ModeOf(s.fsm)) then 0 else maxAttempts + 5
  {
    hide *;
    InitSound(maxAttempts);
    SoundAlong(Init(), ls, maxAttempts);
    KeptRounds(Execute(Init(), ls, maxAttempts), maxAttempts);
  }

  lemma KeptRounds(s: Sys, maxAttempts: nat)
    requires Kept(s, maxAttempts)
    ensures WellFormed(s.fsm) && Sound(BooksOf(s), maxAttempts)
    ensures s.h.opening <= LastChance(maxAttempts) + 1
    ensures s.h.repeats <= if BeforeAlert(ModeOf(s.fsm)) then maxAttempts + 1
                           else if IsPhase(ModeOf(s.fsm)) then 0 else maxAttempts + 5
  {
    hide Outstanding, Replay, ReplayAttempts, Accounts, Sound, ModeOf;
    SoundRounds(BooksOf(s), maxAttempts);
  }

  lemma SoundRounds(b: Books, maxAttempts: nat)
    requires Sound(b, maxAttempts)
    ensures b.opening <= LastChance(maxAttempts) + 1
    ensures b.n <= if BeforeAlert(b.mode) then maxAttempts + 1 else if IsPhase(b.mode) then 0 else maxAttempts + 5
  {
    hide Ordered, OpeningFirst, Late;
    RoundsAreArms(b.queued);
  }

  /** And the protocol watchdog expires at most `maxAttempts + min(maxAttempts, 14) + 12` times: five more than in
      run-to-completion operation. */
  lemma ExpiriesAreBounded(ls: seq<Label>, maxAttempts: nat)
    requires Schedule(Init(), ls, maxAttempts)
    ensures Expiries(ls) <= maxAttempts + LastChance(maxAttempts) + 12
  {
    hide *;
    InitSound(maxAttempts);
    SoundAlong(Init(), ls, maxAttempts);
    KeptRounds(Execute(Init(), ls, maxAttempts), maxAttempts);
    RoomIsShort(BooksOf(Execute(Init(), ls, maxAttempts)), maxAttempts);
  }

  lemma RoomIsShort(b: Books, maxAttempts: nat)
    requires Sound(b, maxAttempts)
    ensures Room(b) <= maxAttempts + LastChance(maxAttempts) + 12
  {
    hide Sound, Owed, Max, Min;
    SoundRounds(b, maxAttempts);
  }
}
