/** Asynchronous progress: in no interleaving does the protocol come to rest in a mode that waits for a
    timeout, without a timeout to come, although a start of the watchdog can be lost on a running one. */
module FsmProgress {
  import opened Common
  import opened FsmDomain
  import opened FsmTask
  import opened Watchdog
  import opened FsmSystem
  import opened FsmAsync
  import FsmDrain
  import opened FsmRtc
  import opened FsmStale

  /** Events on which a waiting mode is certain to leave. */
  predicate Releases(m: Mode, e: Event) {
    || e.Timeout?
    || (e.QuorumPhase? && m in {AlertPhase, DataPhase, MonitorPhase})
    || (e.QuorumSafeMode? && m == Safe)
  }

  predicate ReleaseSent(m: Mode, es: seq<Event>) { exists e :: e in es && Releases(m, e) }

  function StreamOf(s: Sys): seq<TimerCmd<Mode>> { TimerStream(s.task.toTimer, Outstanding(s)) }

  predicate VerdictSent(es: seq<Event>) { exists e :: e in es && IsVerdict(e) }

  /** A verdict is on its way, or the count that makes one is outstanding. */
  predicate VerdictComes(es: seq<Event>, o: seq<Action>) {
    VerdictSent(es) || OnEntryQuorum(CheckQuorumIn) in o || OnEntryQuorum(CheckQuorumOut) in o
  }

  predicate Alive(m: Mode, es: seq<Event>, o: seq<Action>, t: Timer<Mode>, stream: seq<TimerCmd<Mode>>) {
    && m != Booting
    && (Waits(m) ==> ReleaseSent(m, es) || WillRun(t, stream))
    && (m == CheckIn || m == CheckOut ==> VerdictComes(es, o))
  }

  ghost predicate Living(s: Sys) {
    Lags(s) && Alive(ModeOf(s.fsm), s.task.toFsm, Outstanding(s), s.timer, StreamOf(s))
  }

  // --- on values ---------------------------------------------------------------------------------------------

  lemma LivingArrow(m: Mode, es: seq<Event>, o: seq<Action>, t: Timer<Mode>, stream: seq<TimerCmd<Mode>>, to: Mode)
    requires Alive(m, es, o, t, stream) && es != [] && Target(m, es[0]) == Some(to)
    ensures Alive(to, es[1..], o + Emitted(m, es[0], to), t, stream + TimerMoves(m, to))
  {
    if m == to {
      assert forall e :: e in es ==> e == es[0] || e in es[1..];
      assert stream + TimerMoves(m, to) == stream;
    } else if to == CheckIn || to == CheckOut {
      var acts := Emitted(m, es[0], to);
      assert acts[|acts| - 1] in o + acts;
    }
  }

  lemma LivingRejection(m: Mode, es: seq<Event>, o: seq<Action>, t: Timer<Mode>, stream: seq<TimerCmd<Mode>>)
    requires Alive(m, es, o, t, stream) && es != [] && Target(m, es[0]) == None
    ensures Alive(m, es[1..], o, t, stream)
  {
    assert forall e :: e in es ==> e == es[0] || e in es[1..];
  }

  lemma MoreEvents(m: Mode, es: seq<Event>, more: seq<Event>)
    ensures ReleaseSent(m, es) ==> ReleaseSent(m, es + more)
    ensures VerdictSent(es) ==> VerdictSent(es + more)
    ensures more != [] && Releases(m, more[0]) ==> ReleaseSent(m, es + more)
    ensures more != [] && IsVerdict(more[0]) ==> VerdictSent(es + more)
  {
    if ReleaseSent(m, es) {
      var e :| e in es && Releases(m, e);
      assert e in es + more;
    }
    if VerdictSent(es) {
      var e :| e in es && IsVerdict(e);
      assert e in es + more;
    }
    if more != [] {
      assert more[0] in es + more;
    }
  }

  /** Actions without a timer command do not start a new session, except to count votes. */
  lemma {:induction false} NoTimerNoMove(st: StateOfSession, o: seq<Action>)
    requires Gather(TimerCommandsOf, o) == []
    ensures Replay(st, o) == st || Replay(st, o) == StateOfSession.Quorum
    decreases |o|
  {
    if o != [] {
      assert TimerCommandsOf(o[0]) == [] && Gather(TimerCommandsOf, o[1..]) == [];
      NoTimerNoMove(StateAfter(st, o[0]), o[1..]);
    }
  }

  /** A report that cancels the watchdog, and the event sent with it. */
  lemma LivingCancel(m: Mode, es: seq<Event>, o: seq<Action>, t: Timer<Mode>, commands: seq<TimerCmd<Mode>>,
                     st: StateOfSession, e: Event)
    requires Alive(m, es, o, t, TimerStream(commands, o)) && (m != Steady ==> Replay(st, o) == SessionOf(m))
    requires (e.QuorumPhase? && InPhase(st)) || (e.QuorumSafeMode? && st == StateOfSession.SafeMode)
    ensures Alive(m, es + [e], o, t, TimerStream(commands + [TimerCmd.StopTimer], o))
  {
    MoreEvents(m, es, [e]);
    var out := Gather(TimerCommandsOf, o);
    hide Gather, Replay, ReleaseSent, VerdictSent;
    if Waits(m) && !ReleaseSent(m, es) {
      if out == [] {
        NoTimerNoMove(st, o);
      } else {
        assert TimerStream(commands, o)[|commands + out| - 1] == out[|out| - 1];
        var stream := TimerStream(commands + [TimerCmd.StopTimer], o);
        assert stream[|stream| - 1] == out[|out| - 1];
      }
    }
  }

  // --- on the system -------------------------------------------------------------------------------------------

  lemma LivingRunFsm(s: Sys, maxAttempts: nat)
    requires Living(s) && s.task.toFsm != []
    ensures Living(Apply(s, RunFsm, maxAttempts))
  {
    assert Enabled(s, RunFsm);
    hide *;
    LivingMeans(s);
    LagKept(s, RunFsm, maxAttempts);
    var e, s' := s.task.toFsm[0], Apply(s, RunFsm, maxAttempts);
    var m, o, stream := ModeOf(s.fsm), Outstanding(s), StreamOf(s);
    if Step(s.fsm, e).Valid? {
      Accepted(s, maxAttempts);
      var to := ModeOf(s'.fsm);
      LivingArrow(m, s.task.toFsm, o, s.timer, stream, to);
      ArrowIsShaped(m, e, to);
      EmittedMoves(m, e, to);
      StreamGrows(s, s', Emitted(m, e, to));
    } else {
      Rejected(s, maxAttempts);
      LivingRejection(m, s.task.toFsm, o, s.timer, stream);
      StreamStays(s, s');
    }
    LivingMeans(s');
  }

  /** `Living`, taken apart. */
  lemma LivingMeans(s: Sys)
    ensures Lags(s) ==> WellFormed(s.fsm)
    ensures Living(s) <==>
              Lags(s) && Alive(ModeOf(s.fsm), s.task.toFsm, Outstanding(s), s.timer, StreamOf(s))
  {
    hide Alive, StreamOf, Outstanding, Replay, ReplayAttempts;
  }

  lemma StreamGrows(s: Sys, s': Sys, acts: seq<Action>)
    requires s'.task.toTimer == s.task.toTimer && Outstanding(s') == Outstanding(s) + acts
    ensures StreamOf(s') == StreamOf(s) + Gather(TimerCommandsOf, acts)
  {
    hide Outstanding;
    GatherAppend(TimerCommandsOf, Outstanding(s), acts);
  }

  lemma StreamStays(s: Sys, s': Sys)
    requires s'.task.toTimer == s.task.toTimer && Outstanding(s') == Outstanding(s)
    ensures StreamOf(s') == StreamOf(s)
  {
    hide Outstanding;
  }

  lemma LivingAction(s: Sys, total: nat, maxAttempts: nat)
    requires Living(s) && s.pending != []
    ensures Living(Apply(s, DoAction(total), maxAttempts))
  {
    hide Lags, HandleAction, TimerCommandsOf, Verdict, ReleaseSent, VerdictSent, BeatActionsOf;
    LagKept(s, DoAction(total), maxAttempts);
    LagsIsWellFormed(s);
    var a, s' := s.pending[0], Apply(s, DoAction(total), maxAttempts);
    OutstandingAfter(s, DoAction(total), maxAttempts);
    ActionSends(s.task, a, maxAttempts, total);
    assert Outstanding(s)[0] == a && Outstanding(s)[1..] == Outstanding(s');
    hide Outstanding;
    assert StreamOf(s') == StreamOf(s);
    var v := Verdict(|s.task.session.handshake|, s.task.session.attempts, maxAttempts, total);
    VerdictsAreVerdicts(|s.task.session.handshake|, s.task.session.attempts, maxAttempts, total);
    MoreEvents(ModeOf(s.fsm), s.task.toFsm, if CountsVotes(a) then [v] else []);
    hide StreamOf, WillRun, IsVerdict;
  }

  lemma LivingReceive(s: Sys, c: Command, total: nat, maxAttempts: nat)
    requires Living(s) && s.pending == []
    ensures Living(Apply(s, Label.Receive(c, total), maxAttempts))
  {
    hide Lags, HandleCommand, Replay, Alive;
    LagKept(s, Label.Receive(c, total), maxAttempts);
    LagsIsWellFormed(s);
    var s' := Apply(s, Label.Receive(c, total), maxAttempts);
    CommandSends(s.task, c, total);
    assert Outstanding(s') == Outstanding(s);
    var es := EventsOfCommand(s.task, c, total);
    var m := ModeOf(s.fsm);
    if QuorumPhase in es || QuorumSafeMode in es {
      assert es == [es[0]];
      LivingCancel(m, s.task.toFsm, Outstanding(s), s.timer, s.task.toTimer, s.task.session.state, es[0]);
    } else {
      LivingMore(m, s.task.toFsm, es, Outstanding(s), s.timer, StreamOf(s));
      assert s'.task.toTimer == s.task.toTimer;
    }
  }

  lemma LivingMore(m: Mode, es: seq<Event>, more: seq<Event>, o: seq<Action>, t: Timer<Mode>, stream: seq<TimerCmd<Mode>>)
    requires Alive(m, es, o, t, stream)
    ensures Alive(m, es + more, o, t, stream)
  {
    hide ReleaseSent, VerdictSent;
    MoreEvents(m, es, more);
  }

  lemma LivingFires(m: Mode, es: seq<Event>, o: seq<Action>, t: Timer<Mode>, stream: seq<TimerCmd<Mode>>)
    requires Alive(m, es, o, t, stream)
    ensures Alive(m, es + [Timeout], o, Idle, stream)
  {
    hide ReleaseSent, VerdictSent;
    MoreEvents(m, es, [Timeout]);
  }

  lemma LivingTimer(s: Sys, l: Label, maxAttempts: nat)
    requires Living(s) && Enabled(s, l) && (l.TimerFires? || l.WatchdogReceives?)
    ensures Living(Apply(s, l, maxAttempts))
  {
    hide Lags, ReleaseSent, VerdictSent;
    LagKept(s, l, maxAttempts);
    LagsIsWellFormed(s);
    var s' := Apply(s, l, maxAttempts);
    assert Outstanding(s') == Outstanding(s);
    hide Outstanding, Replay;
    if l.TimerFires? {
      LivingFires(ModeOf(s.fsm), s.task.toFsm, Outstanding(s), s.timer, StreamOf(s));
      hide Alive;
    } else {
      var stream := StreamOf(s);
      assert stream[0] == s.task.toTimer[0] && stream[1..] == StreamOf(s');
      if WillRun(s.timer, stream) { ReceivedRuns(s.timer, stream); }
      hide StreamOf, WillRun;
    }
  }

  lemma LivingKept(s: Sys, l: Label, maxAttempts: nat)
    requires Living(s) && Enabled(s, l)
    ensures Living(Apply(s, l, maxAttempts))
  {
    hide Lags, Alive, HandleAction, HandleCommand, Step;
    match l {
      case RunFsm => LivingRunFsm(s, maxAttempts);
      case DoAction(total) => LivingAction(s, total, maxAttempts);
      case Receive(c, total) => LivingReceive(s, c, total, maxAttempts);
      case TimerFires | WatchdogReceives => LivingTimer(s, l, maxAttempts);
      case _ =>
        LagKept(s, l, maxAttempts);
        LagsIsWellFormed(s);
        OutstandingAfter(s, l, maxAttempts);
    }
  }

  lemma {:induction false} LivingAlong(s: Sys, ls: seq<Label>, maxAttempts: nat)
    requires Living(s) && Schedule(s, ls, maxAttempts)
    ensures Living(Execute(s, ls, maxAttempts))
    decreases |ls|
  {
    hide Living, Apply, Enabled;
    if ls != [] {
      LivingKept(s, ls[0], maxAttempts);
      LivingAlong(Apply(s, ls[0], maxAttempts), ls[1..], maxAttempts);
    }
  }

  lemma InitLiving()
    ensures Living(Init())
  {
    InitAsync();
    hide Lags, Accounts;
  }

  /** In every interleaving from power-on: where no task can move, the machine awaits its epoch or is in
      Normal, or the watchdog is still to send a timeout. */
  lemma NeverStuck(ls: seq<Label>, maxAttempts: nat)
    requires Schedule(Init(), ls, maxAttempts)
    requires forall l :: !External(l) ==> !Enabled(Execute(Init(), ls, maxAttempts), l)
    ensures var s := Execute(Init(), ls, maxAttempts);
            WellFormed(s.fsm) && (ModeOf(s.fsm) in {AwaitingEpoch, Steady} || !s.timer.Idle?)
  {
    InitLiving();
    LivingAlong(Init(), ls, maxAttempts);
    var s := Execute(Init(), ls, maxAttempts);
    FsmDrain.StoppedMeansDrained(s);
    hide Schedule, Execute, Enabled;
    LagsIsWellFormed(s);
    RestingAlive(s);
  }

  lemma RestingAlive(s: Sys)
    requires Living(s) && s.task.toFsm == [] && s.pending == [] && s.actions == []
    requires s.task.toTimer == [] || s.timer.Deaf?
    ensures ModeOf(s.fsm) in {AwaitingEpoch, Steady} || !s.timer.Idle?
  {
    assert Outstanding(s) == [];
    assert s.timer.Idle? ==> StreamOf(s) == [];
  }
}
