/** Run-to-completion operation of the FSM runtime: every command, timer expiry and beat expiry is
    worked off, in any interleaving of the tasks, before the next one occurs. This file holds the
    invariant of such runs; FsmRtcTheorems.dfy draws the conclusions. */
module FsmRtc {
  import opened Common
  import opened FsmDomain
  import opened FsmTask
  import opened Watchdog
  import opened FsmSystem
  import opened FsmAsync

  predicate RtcEnabled(s: Sys, l: Label) { Enabled(s, l) && (External(l) ==> IsQuiet(s)) }

  // --- control: one event or one list of actions in flight ----------------------------------------

  /** The outstanding actions a mode can have (each a tail of what its entry emitted). */
  predicate WorkOf(m: Mode, o: seq<Action>) {
    || o == []
    || match m
       case Booting => false
       case AwaitingEpoch => o == [OnEntryBalance(InitBalanceMode)]
       case HandshakeIn => o == [OnEntryBalance(SubStateBalanceMode.InHandshake)] || o == [CalculateQuorum]
       case CheckIn =>
         o == [OnEntryBalance(SubStateBalanceMode.Quorum), OnEntryQuorum(CheckQuorumIn)] || o == [OnEntryQuorum(CheckQuorumIn)]
       case RepeatIn => o == [OnEntryQuorum(RepeatHandshakeIn)] || o == [CalculateQuorum]
       case AlertPhase =>
         || o == [Action.StopTimer, OnEntryBalance(Phase), OnEntryPhase(Alert)]
         || o == [OnEntryBalance(Phase), OnEntryPhase(Alert)] || o == [OnEntryPhase(Alert)]
       case DataPhase => o == [Action.StopTimer, OnEntryPhase(Data)] || o == [OnEntryPhase(Data)]
       case MonitorPhase => o == [Action.StopTimer, OnEntryPhase(Monitor)] || o == [OnEntryPhase(Monitor)]
       case HandshakeOut =>
         || o == [StopSendHeartbeatMessagePhase, Action.StopTimer, OnEntryBalance(SubStateBalanceMode.OutHandshake)]
         || o == [Action.StopTimer, OnEntryBalance(SubStateBalanceMode.OutHandshake)]
         || o == [OnEntryBalance(SubStateBalanceMode.OutHandshake)] || o == [CalculateQuorum]
       case CheckOut =>
         o == [OnEntryBalance(SubStateBalanceMode.Quorum), OnEntryQuorum(CheckQuorumOut)] || o == [OnEntryQuorum(CheckQuorumOut)]
       case RepeatOut => o == [OnEntryQuorum(RepeatHandshakeOut)] || o == [CalculateQuorum]
       case Safe => o == [OnEntrySafeMode]
       case Steady =>
         || o == [Action.StopTimer, OnEntryNormal] || o == [StopSendHeartbeatMessageSafeMode, OnEntryNormal]
         || o == [OnEntryNormal]
  }

  predicate EpochEvent(e: Event) { e.BalanceEpochOk? || e.BalanceEpochNotOk? }

  /** The event a mode can be about to read. */
  predicate Hears(m: Mode, e: Event) {
    match m
    case Booting => false
    case AwaitingEpoch => EpochEvent(e)
    case HandshakeIn | HandshakeOut =>
      EpochEvent(e) || e.Timeout? || e.NewMessageHandshake? || e.ApproveQuorum? || e.NotApproveQuorum?
    case CheckIn | CheckOut => IsVerdict(e)
    case RepeatIn | RepeatOut => EpochEvent(e) || e.Timeout? || e.NewMessageHandshake? || IsVerdict(e)
    case AlertPhase | DataPhase | MonitorPhase => EpochEvent(e) || e.Timeout? || e.QuorumPhase?
    case Safe => EpochEvent(e) || e.Timeout? || e.QuorumSafeMode?
    case Steady => EpochEvent(e) || e.NewMessageHandshake? || e.QuorumPhase? || e.QuorumSafeMode?
  }

  predicate Linear(m: Mode, es: seq<Event>, o: seq<Action>, st: StateOfSession) {
    && m != Booting
    && |es| <= 1
    && (es != [] ==> o == [] && Hears(m, es[0]))
    && WorkOf(m, o)
    && (m == CheckIn || m == CheckOut ==> es != [] || o != [])
    && (OnEntryBalance(SubStateBalanceMode.InHandshake) in o ==> st == NoSession)
    && (OnEntryBalance(SubStateBalanceMode.OutHandshake) in o ==> st == PhaseMonitor)
    && (OnEntryQuorum(CheckQuorumIn) in o || OnEntryQuorum(CheckQuorumOut) in o ==> ListensForHandshakes(st))
  }

  // --- timers -------------------------------------------------------------------------------------

  /** Modes that wait under a running watchdog. */
  predicate Waits(m: Mode) {
    m in {HandshakeIn, RepeatIn, AlertPhase, DataPhase, MonitorPhase, HandshakeOut, RepeatOut, Safe}
  }

  /** Events that mean the mode's watchdog has run out or was cancelled with them. */
  predicate Spends(e: Event) { e.Timeout? || e.QuorumPhase? || e.QuorumSafeMode? }

  function Expected(m: Mode, es: seq<Event>): Timer<Mode> {
    if Waits(m) && !(es != [] && Spends(es[0])) then Armed(m) else Idle
  }

  /** All timer commands on their way: those in the channel, then those of the outstanding actions. */
  function TimerStream(cs: seq<TimerCmd<Mode>>, o: seq<Action>): seq<TimerCmd<Mode>> {
    cs + Gather(TimerCommandsOf, o)
  }

  ghost predicate TimerInv(m: Mode, es: seq<Event>, t: Timer<Mode>, stream: seq<TimerCmd<Mode>>) {
    Clean(t, stream) && Feed(t, stream) == Expected(m, es)
  }

  // --- heartbeats ---------------------------------------------------------------------------------

  function BeatOf(m: Mode): Beat {
    match m
    case AlertPhase | DataPhase | MonitorPhase => PhaseBeat
    case Safe => SafeBeat
    case Steady => NormalBeat
    case _ => NoBeat
  }

  function ExpectedBeat(m: Mode): Timer<Beat> { if BeatOf(m) == NoBeat then Idle else Armed(BeatOf(m)) }

  function BeatAfter(b: Beat, acts: seq<Action>): Beat
    decreases |acts|
  {
    if acts == [] then b
    else BeatAfter(if Cadence(acts[0]) != NoBeat then Cadence(acts[0]) else b, acts[1..])
  }

  function BeatStream(g: Generator, queued: seq<Action>, beatEvents: nat): seq<TimerCmd<Beat>> {
    g.toTimer + Gather(BeatCommands, queued) + (if beatEvents == 0 || g.beat == NoBeat then [] else [InitTimer(g.beat)])
  }

  ghost predicate BeatInv(m: Mode, g: Generator, queued: seq<Action>, t: Timer<Beat>, beatEvents: nat) {
    && beatEvents <= 1
    && (beatEvents == 1 ==> queued == [] && g.toTimer == [] && t == Idle && BeatOf(m) != NoBeat)
    && (BeatOf(m) != NoBeat ==> BeatAfter(g.beat, queued) == BeatOf(m))
    && Clean(t, BeatStream(g, queued, beatEvents))
    && Feed(t, BeatStream(g, queued, beatEvents)) == ExpectedBeat(m)
  }

  function BeatsQueued(s: Sys): seq<Action> { s.task.toHeartbeat + Gather(BeatActionsOf, Outstanding(s)) }

  // --- attempts, votes, reports -------------------------------------------------------------------

  predicate Tries(m: Mode, n: nat, maxAttempts: nat) {
    match m
    case CheckIn | CheckOut => n <= maxAttempts + 1
    case RepeatIn | RepeatOut => 1 <= n <= maxAttempts + 1
    case Safe | Steady => true
    case _ => n == 0
  }

  /** Distinct senders whose handshake carried the epoch current on arrival. */
  function Cast(ballots: seq<Ballot>): set<HubId> {
    set b | b in ballots && b.epoch == b.current :: b.sender
  }

  /** Distinct senders that reported an empty queue. */
  function Emptied(reports: seq<Report>, safe: bool): set<HubId> {
    set r | r in reports && r.empty && r.safe == safe :: r.sender
  }

  predicate InRound(st: StateOfSession) { ListensForHandshakes(st) || st == StateOfSession.Quorum }

  ghost predicate VotesInv(m: Mode, session: Session, h: History) {
    m != Steady ==>
      && (InRound(session.state) ==> session.handshake.Keys == Cast(h.ballots))
      && (session.state == NoSession || InPhase(session.state) ==> session.handshake == map[])
      && (InPhase(session.state) ==> session.empty.Keys == Emptied(h.reports, false))
      && (session.state == StateOfSession.SafeMode ==> session.empty.Keys == Emptied(h.reports, true))
  }

  /** What an event in flight testifies to. */
  ghost predicate Evidence(m: Mode, es: seq<Event>, session: Session, h: History, maxAttempts: nat) {
    es != [] && m != Steady ==>
      && (IsVerdict(es[0]) ==> es[0] == Verdict(|session.handshake|, session.attempts, maxAttempts, h.lastTotal))
      && (es[0].QuorumPhase? ==> Reaches(|session.empty|, h.lastTotal, PHASE_PERCENTAGE))
      && (es[0].QuorumSafeMode? ==> Reaches(|session.empty|, h.lastTotal, SAFE_PERCENTAGE))
  }

  ghost predicate RtcRest(s: Sys, maxAttempts: nat)
    requires WellFormed(s.fsm)
  {
    && (s.beatEvents > 0 ==> s.task.toFsm == [] && s.pending == [] && s.actions == [] && s.task.toTimer == [])
    && Linear(ModeOf(s.fsm), s.task.toFsm, Outstanding(s), s.task.session.state)
    && TimerInv(ModeOf(s.fsm), s.task.toFsm, s.timer, TimerStream(s.task.toTimer, Outstanding(s)))
    && BeatInv(ModeOf(s.fsm), s.generator, BeatsQueued(s), s.beatTimer, s.beatEvents)
    && Tries(ModeOf(s.fsm), s.h.repeats, maxAttempts)
    && VotesInv(ModeOf(s.fsm), s.task.session, s.h)
    && Evidence(ModeOf(s.fsm), s.task.toFsm, s.task.session, s.h, maxAttempts)
  }

  ghost predicate RtcInv(s: Sys, maxAttempts: nat) { Lags(s) && RtcRest(s, maxAttempts) }

  // --- one arrow ------------------------------------------------------------------------------------

  lemma ArrowControl(m: Mode, e: Event, to: Mode, st: StateOfSession)
    requires Target(m, e) == Some(to) && Hears(m, e)
    requires st == SessionOf(m)
    ensures Linear(to, [], Emitted(m, e, to), st)
  {
  }

  /** The timer commands an arrow leads to. */
  function TimerMoves(m: Mode, to: Mode): seq<TimerCmd<Mode>> {
    if m == to then []
    else
      match to
      case Booting | AwaitingEpoch | CheckIn | CheckOut => []
      case HandshakeIn | RepeatIn | RepeatOut | Safe => [InitTimer(to)]
      case AlertPhase | DataPhase | MonitorPhase | HandshakeOut => [TimerCmd.StopTimer, InitTimer(to)]
      case Steady => if m == Safe then [] else [TimerCmd.StopTimer]
  }

  function BeatMoves(m: Mode, to: Mode): seq<Action> {
    if m == to then []
    else
      match to
      case AlertPhase => [SendHeartbeatMessagePhase]
      case HandshakeOut => [StopSendHeartbeatMessagePhase]
      case Safe => [SendHeartbeatMessageSafeMode]
      case Steady =>
        if m == Safe then [StopSendHeartbeatMessageSafeMode, SendHeartbeatMessageNormal] else [SendHeartbeatMessageNormal]
      case _ => []
  }

  /** What `GatherShort` reads off an emission of at most three actions. */
  ghost predicate TimerMovesAt(m: Mode, acts: seq<Action>, to: Mode) {
    && |acts| <= 3
    && GatherAt(TimerCommandsOf, acts, 0) + GatherAt(TimerCommandsOf, acts, 1) + GatherAt(TimerCommandsOf, acts, 2)
       == TimerMoves(m, to)
  }

  lemma HandshakeTimerMoves(m: Mode, e: Event, to: Mode)
    requires ArrowShape(m, to) && to in {AwaitingEpoch, HandshakeIn, CheckIn, CheckOut, RepeatIn, RepeatOut}
    ensures TimerMovesAt(m, Emitted(m, e, to), to)
  {
  }

  lemma LaterTimerMoves(m: Mode, e: Event, to: Mode)
    requires ArrowShape(m, to) && to !in {AwaitingEpoch, HandshakeIn, CheckIn, CheckOut, RepeatIn, RepeatOut}
    ensures TimerMovesAt(m, Emitted(m, e, to), to)
  {
    if to in {AlertPhase, DataPhase, MonitorPhase} {
    } else if to == HandshakeOut {
    } else {
    }
  }

  lemma BeatMovesAt(m: Mode, e: Event, to: Mode)
    requires ArrowShape(m, to)
    ensures var acts := Emitted(m, e, to);
            && |acts| <= 3
            && GatherAt(BeatActionsOf, acts, 0) + GatherAt(BeatActionsOf, acts, 1) + GatherAt(BeatActionsOf, acts, 2)
               == BeatMoves(m, to)
  {
    if to in {AwaitingEpoch, HandshakeIn, CheckIn, CheckOut, RepeatIn, RepeatOut} {
      HandshakeBeatMoves(m, e, to);
    } else if to in {AlertPhase, DataPhase, MonitorPhase} {
    } else if to == HandshakeOut {
    } else {
    }
  }

  lemma HandshakeBeatMoves(m: Mode, e: Event, to: Mode)
    requires ArrowShape(m, to) && to in {AwaitingEpoch, HandshakeIn, CheckIn, CheckOut, RepeatIn, RepeatOut}
    ensures var acts := Emitted(m, e, to);
            && |acts| <= 3
            && GatherAt(BeatActionsOf, acts, 0) == [] && GatherAt(BeatActionsOf, acts, 1) == []
            && GatherAt(BeatActionsOf, acts, 2) == [] && BeatMoves(m, to) == []
  {
  }

  lemma EmittedMoves(m: Mode, e: Event, to: Mode)
    requires ArrowShape(m, to)
    ensures Gather(TimerCommandsOf, Emitted(m, e, to)) == TimerMoves(m, to)
    ensures Gather(BeatActionsOf, Emitted(m, e, to)) == BeatMoves(m, to)
  {
    if to in {AwaitingEpoch, HandshakeIn, CheckIn, CheckOut, RepeatIn, RepeatOut} {
      HandshakeTimerMoves(m, e, to);
    } else {
      LaterTimerMoves(m, e, to);
    }
    BeatMovesAt(m, e, to);
    hide Emitted;
    GatherShort(TimerCommandsOf, Emitted(m, e, to));
    GatherShort(BeatActionsOf, Emitted(m, e, to));
  }

  lemma ArrowTimer(m: Mode, e: Event, to: Mode)
    requires Target(m, e) == Some(to) && Hears(m, e)
    ensures TimerInv(to, [], Expected(m, [e]), TimerMoves(m, to))
  {
    var cs := TimerMoves(m, to);
    if |cs| == 1 {
      OneOrTwoCommands(Expected(m, [e]), cs[0], cs[0]);
    } else if |cs| == 2 {
      OneOrTwoCommands(Expected(m, [e]), cs[0], cs[1]);
    }
  }

  lemma ArrowBeat(m: Mode, e: Event, to: Mode)
    requires Target(m, e) == Some(to)
    ensures Clean(ExpectedBeat(m), Gather(BeatCommands, BeatMoves(m, to)))
    ensures Feed(ExpectedBeat(m), Gather(BeatCommands, BeatMoves(m, to))) == ExpectedBeat(to)
    ensures BeatOf(to) != NoBeat ==> BeatAfter(BeatOf(m), BeatMoves(m, to)) == BeatOf(to)
    ensures BeatOf(to) != NoBeat && BeatOf(m) == NoBeat ==> forall b :: BeatAfter(b, BeatMoves(m, to)) == BeatOf(to)
  {
    var acts := BeatMoves(m, to);
    assert acts == [] ==> BeatOf(m) == BeatOf(to);
    assert acts != [] ==> (BeatOf(m) == NoBeat) == (Cadence(acts[0]) != NoBeat);
    assert |acts| == 1 ==> Cadence(acts[0]) == BeatOf(to);
    assert |acts| == 2 ==> Cadence(acts[1]) == BeatOf(to) == NormalBeat;
    assert |acts| <= 2;
    hide Target;
    BeatCommandList(acts);
    if |acts| == 1 {
      OneOrTwoCommands(ExpectedBeat(m), BeatCommands(acts[0])[0], BeatCommands(acts[0])[0]);
    } else if |acts| == 2 {
      var c0, c1 := BeatCommands(acts[0])[0], BeatCommands(acts[1])[0];
      assert Gather(BeatCommands, acts) == [c0, c1];
      OneOrTwoCommands(ExpectedBeat(m), c0, c1);
    }
  }

  lemma BeatCommandList(acts: seq<Action>)
    requires |acts| <= 2 && forall i :: 0 <= i < |acts| ==> |BeatCommands(acts[i])| == 1
    ensures Gather(BeatCommands, acts) == seq(|acts|, i requires 0 <= i < |acts| => BeatCommands(acts[i])[0])
    ensures forall b :: BeatAfter(b, acts) ==
                        if |acts| == 2 && Cadence(acts[1]) != NoBeat then Cadence(acts[1])
                        else if |acts| >= 1 && Cadence(acts[0]) != NoBeat then Cadence(acts[0]) else b
  {
    GatherShort(BeatCommands, acts);
    if |acts| == 2 {
      assert acts[1..] == [acts[1]] && acts[1..][1..] == [];
    }
  }

  // --- the tasks' steps -----------------------------------------------------------------------------

  lemma ArrowTries(m: Mode, e: Event, to: Mode, session: Session, n: nat, maxAttempts: nat, total: nat)
    requires Target(m, e) == Some(to) && Tries(m, n, maxAttempts)
    requires IsVerdict(e) ==> e == Verdict(|session.handshake|, session.attempts, maxAttempts, total)
    requires IsVerdict(e) ==> session.attempts == n
    ensures Tries(to, RepeatsAfter(m, to, n), maxAttempts)
  {
  }

  lemma RunFsmTimers(m: Mode, es: seq<Event>, to: Mode, t: Timer<Mode>, cs: seq<TimerCmd<Mode>>, moves: seq<TimerCmd<Mode>>)
    requires TimerInv(m, es, t, cs)
    requires TimerInv(to, [], Expected(m, es), moves)
    ensures TimerInv(to, [], t, cs + moves)
  {
    FeedAppend(t, cs, moves);
  }

  lemma {:induction false} BeatAfterAppend(b: Beat, x: seq<Action>, y: seq<Action>)
    ensures BeatAfter(b, x + y) == BeatAfter(BeatAfter(b, x), y)
    decreases |x|
  {
    if x == [] {
      assert x + y == y;
    } else {
      assert (x + y)[0] == x[0] && (x + y)[1..] == x[1..] + y;
      BeatAfterAppend(if Cadence(x[0]) != NoBeat then Cadence(x[0]) else b, x[1..], y);
    }
  }

  lemma BeatStreamAppend(g: Generator, queued: seq<Action>, moves: seq<Action>)
    ensures BeatStream(g, queued + moves, 0) == BeatStream(g, queued, 0) + Gather(BeatCommands, moves)
  {
    GatherAppend(BeatCommands, queued, moves);
  }

  lemma RunFsmBeats(m: Mode, e: Event, to: Mode, g: Generator, queued: seq<Action>, t: Timer<Beat>)
    requires Target(m, e) == Some(to) && BeatInv(m, g, queued, t, 0)
    ensures BeatInv(to, g, queued + BeatMoves(m, to), t, 0)
  {
    hide Target, BeatStream, Gather, BeatCommands, Clean, Feed, BeatOf, ExpectedBeat, BeatAfter, BeatMoves;
    var moves := BeatMoves(m, to);
    ArrowBeat(m, e, to);
    BeatStreamAppend(g, queued, moves);
    FeedAppend(t, BeatStream(g, queued, 0), Gather(BeatCommands, moves));
    BeatAfterAppend(g.beat, queued, moves);
  }

  lemma RunFsmVotes(m: Mode, to: Mode, session: Session, h: History, recent: nat, repeats: nat, opening: nat)
    requires VotesInv(m, session, h) && m != Steady
    ensures VotesInv(to, session, h.(recent := recent, repeats := repeats, opening := opening))
  {
  }

  lemma RtcRunFsm(s: Sys, maxAttempts: nat)
    requires RtcInv(s, maxAttempts) && s.task.toFsm != []
    ensures RtcInv(ApplyRunFsm(s), maxAttempts)
  {
    hide Step, Emitted, Linear, TimerInv, BeatInv, VotesInv, Evidence, Tries, RtcRest, CountRepeats;
    var e := s.task.toFsm[0];
    LagKept(s, RunFsm, maxAttempts);
    StepIsFlat(s.fsm, e);
    if Step(s.fsm, e).Valid? {
      RestOfRunFsm(s, maxAttempts);
    } else {
      RejectedInRtc(s, maxAttempts);
    }
  }

  /** The arrow taken, and what stands still. */
  lemma ArrowOfRunFsm(s: Sys, maxAttempts: nat)
    requires RtcInv(s, maxAttempts) && s.task.toFsm != [] && Step(s.fsm, s.task.toFsm[0]).Valid?
    ensures var s', e := ApplyRunFsm(s), s.task.toFsm[0];
            && WellFormed(s.fsm) && WellFormed(s'.fsm) && Target(ModeOf(s.fsm), e) == Some(ModeOf(s'.fsm))
            && Hears(ModeOf(s.fsm), e) && s.task.toFsm == [e] && Outstanding(s) == []
            && Outstanding(s') == Emitted(ModeOf(s.fsm), e, ModeOf(s'.fsm))
            && s.task.session.state == SessionOf(ModeOf(s.fsm))
            && s' == s.(fsm := s'.fsm, actions := s'.actions, task := s.task.(toFsm := []), h := s'.h)
  {
    hide Step, Emitted, TimerInv, BeatInv, VotesInv, Evidence, Tries, CountRepeats;
    var e, s' := s.task.toFsm[0], ApplyRunFsm(s);
    LinearFacts(s);
    hide Linear;
    StepIsFlat(s.fsm, e);
    FlattenAppend(s.actions, Emitted(ModeOf(s.fsm), e, ModeOf(s'.fsm)));
  }

  lemma TimersOfRunFsm(s: Sys, s': Sys, m: Mode, e: Event, to: Mode)
    requires Target(m, e) == Some(to) && Hears(m, e) && s.task.toFsm == [e] && Outstanding(s) == []
    requires s'.timer == s.timer && s'.task.toTimer == s.task.toTimer && Outstanding(s') == Emitted(m, e, to)
    requires TimerInv(m, [e], s.timer, TimerStream(s.task.toTimer, Outstanding(s)))
    ensures TimerInv(to, [], s'.timer, TimerStream(s'.task.toTimer, Outstanding(s')))
  {
    hide TimerInv, Outstanding, Emitted, Target, TimerMoves, Expected, Hears;
    TargetShape(m, e, to);
    EmittedMoves(m, e, to);
    ArrowTimer(m, e, to);
    RunFsmTimers(m, [e], to, s.timer, TimerStream(s.task.toTimer, []), TimerMoves(m, to));
    assert TimerStream(s'.task.toTimer, Outstanding(s')) == TimerStream(s.task.toTimer, []) + TimerMoves(m, to);
  }

  lemma BeatsOfRunFsm(s: Sys, s': Sys, m: Mode, e: Event, to: Mode)
    requires Target(m, e) == Some(to) && Outstanding(s) == [] && Outstanding(s') == Emitted(m, e, to)
    requires s'.generator == s.generator && s'.beatTimer == s.beatTimer && s'.task.toHeartbeat == s.task.toHeartbeat
    requires BeatInv(m, s.generator, BeatsQueued(s), s.beatTimer, 0)
    ensures BeatInv(to, s'.generator, BeatsQueued(s'), s'.beatTimer, 0)
  {
    hide BeatInv, Outstanding, Emitted, Target, BeatMoves;
    TargetShape(m, e, to);
    EmittedMoves(m, e, to);
    RunFsmBeats(m, e, to, s.generator, BeatsQueued(s), s.beatTimer);
    assert BeatsQueued(s') == BeatsQueued(s) + BeatMoves(m, to);
  }

  lemma RestOfRunFsm(s: Sys, maxAttempts: nat)
    requires RtcInv(s, maxAttempts) && s.task.toFsm != [] && Step(s.fsm, s.task.toFsm[0]).Valid?
    ensures WellFormed(ApplyRunFsm(s).fsm) && RtcRest(ApplyRunFsm(s), maxAttempts)
  {
    hide ApplyRunFsm, Outstanding, Step, Emitted, Linear, TimerInv, BeatInv, VotesInv, Evidence, Tries, BeatsQueued, TimerStream, Lags,
      Target, Hears, SessionOf, ModeOf, WellFormed;
    ArrowOfRunFsm(s, maxAttempts);
    var e, s' := s.task.toFsm[0], ApplyRunFsm(s);
    var m, to := ModeOf(s.fsm), ModeOf(s'.fsm);
    ArrowControl(m, e, to, s.task.session.state);
    TimersOfRunFsm(s, s', m, e, to);
    BeatsOfRunFsm(s, s', m, e, to);
    VotesOfRunFsm(s, maxAttempts);
  }

  lemma VotesOfRunFsm(s: Sys, maxAttempts: nat)
    requires RtcInv(s, maxAttempts) && s.task.toFsm != [] && Step(s.fsm, s.task.toFsm[0]).Valid?
    ensures var s' := ApplyRunFsm(s);
            && WellFormed(s'.fsm)
            && Tries(ModeOf(s'.fsm), s'.h.repeats, maxAttempts)
            && VotesInv(ModeOf(s'.fsm), s'.task.session, s'.h)
            && Evidence(ModeOf(s'.fsm), s'.task.toFsm, s'.task.session, s'.h, maxAttempts)
  {
    hide Step, Emitted, Linear, TimerInv, BeatInv, VotesInv, Evidence, Tries, CountRepeats, Verdict;
    var e := s.task.toFsm[0];
    var s' := ApplyRunFsm(s);
    LinearFacts(s);
    StepIsFlat(s.fsm, e);
    var m, to := ModeOf(s.fsm), ModeOf(s'.fsm);
    EvidenceOf(m, s.task.toFsm, s.task.session, s.h, maxAttempts);
    ModesCountRepeats(s.fsm, s'.fsm, s.h.repeats);
    hide RepeatsAfter;
    ArrowTries(m, e, to, s.task.session, s.h.repeats, maxAttempts, s.h.lastTotal);
    RunFsmVotes(m, to, s.task.session, s.h, s'.h.recent, s'.h.repeats, s'.h.opening);
    EmptyEvidence(to, s'.task.session, s'.h, maxAttempts);
  }

  lemma TargetShape(m: Mode, e: Event, to: Mode)
    requires Target(m, e) == Some(to)
    ensures ArrowShape(m, to) && m != Steady
  {
  }

  lemma EvidenceOf(m: Mode, es: seq<Event>, session: Session, h: History, maxAttempts: nat)
    requires Evidence(m, es, session, h, maxAttempts) && es != [] && m != Steady
    ensures IsVerdict(es[0]) ==> es[0] == Verdict(|session.handshake|, session.attempts, maxAttempts, h.lastTotal)
  {
  }

  lemma EmptyEvidence(m: Mode, session: Session, h: History, maxAttempts: nat)
    ensures Evidence(m, [], session, h, maxAttempts)
  {
  }

  lemma RejectedControl(m: Mode, e: Event, st: StateOfSession)
    requires m != Booting && Hears(m, e) && Target(m, e) == None
    ensures Linear(m, [], [], st) && Expected(m, [e]) == Expected(m, [])
  {
  }

  lemma RejectedInRtc(s: Sys, maxAttempts: nat)
    requires RtcInv(s, maxAttempts) && s.task.toFsm != [] && Step(s.fsm, s.task.toFsm[0]).Invalid?
    ensures WellFormed(ApplyRunFsm(s).fsm) && RtcRest(ApplyRunFsm(s), maxAttempts)
  {
    hide Step, Linear, TimerInv, BeatInv, VotesInv, Evidence, Tries;
    var e := s.task.toFsm[0];
    var s' := ApplyRunFsm(s);
    LinearFacts(s);
    StepIsFlat(s.fsm, e);
    var m := ModeOf(s.fsm);
    assert Outstanding(s') == [];
    RejectedControl(m, e, s.task.session.state);
    RunFsmTimersRejected(m, e, s.timer, TimerStream(s.task.toTimer, []));
    assert BeatsQueued(s') == BeatsQueued(s);
    VotesAreFramed(m, s.task.session, s.h, s'.h);
    EmptyEvidence(m, s'.task.session, s'.h, maxAttempts);
  }

  lemma RunFsmTimersRejected(m: Mode, e: Event, t: Timer<Mode>, stream: seq<TimerCmd<Mode>>)
    requires TimerInv(m, [e], t, stream) && Expected(m, [e]) == Expected(m, [])
    ensures TimerInv(m, [], t, stream)
  {
  }

  lemma VotesAreFramed(m: Mode, session: Session, h: History, h': History)
    requires VotesInv(m, session, h) && h'.ballots == h.ballots && h'.reports == h.reports
    ensures VotesInv(m, session, h')
  {
  }

  lemma LinearFacts(s: Sys)
    requires WellFormed(s.fsm) && Linear(ModeOf(s.fsm), s.task.toFsm, Outstanding(s), s.task.session.state)
    requires s.task.toFsm != []
    ensures s.task.toFsm == [s.task.toFsm[0]] && s.task.toFsm[1..] == []
    ensures Outstanding(s) == [] && s.pending == [] && Flatten(s.actions) == []
    ensures Hears(ModeOf(s.fsm), s.task.toFsm[0])
  {
  }

  lemma ActionControl(m: Mode, o: seq<Action>, st: StateOfSession, es: seq<Event>, n: nat, maxAttempts: nat)
    requires Linear(m, [], o, st) && o != []
    requires CountsVotes(o[0]) ==> |es| == 1 && IsVerdict(es[0])
    requires !CountsVotes(o[0]) ==> es == []
    requires Tries(m, n, maxAttempts) && (es == [NotApproveNotAttempts] ==> n > maxAttempts)
    ensures Linear(m, es, o[1..], StateAfter(st, o[0]))
    ensures Expected(m, es) == Expected(m, [])
  {
    assert CountsVotes(o[0]) ==> o[1..] == [];
  }

  lemma ActionTimers(m: Mode, es: seq<Event>, t: Timer<Mode>, cs: seq<TimerCmd<Mode>>, o: seq<Action>)
    requires o != [] && TimerInv(m, [], t, TimerStream(cs, o)) && Expected(m, es) == Expected(m, [])
    ensures TimerInv(m, es, t, TimerStream(cs + TimerCommandsOf(o[0]), o[1..]))
  {
    hide *;
    StreamShifts(cs, o);
    TimerInvEvents(m, es, t, TimerStream(cs, o));
  }

  lemma StreamShifts(cs: seq<TimerCmd<Mode>>, o: seq<Action>)
    requires o != []
    ensures TimerStream(cs + TimerCommandsOf(o[0]), o[1..]) == TimerStream(cs, o)
  {
    hide TimerCommandsOf;
  }

  lemma TimerInvEvents(m: Mode, es: seq<Event>, t: Timer<Mode>, stream: seq<TimerCmd<Mode>>)
    requires TimerInv(m, [], t, stream) && Expected(m, es) == Expected(m, [])
    ensures TimerInv(m, es, t, stream)
  {
    hide Expected, Clean, Feed;
  }

  lemma ActionVotes(m: Mode, t: Task, o: seq<Action>, h: History, maxAttempts: nat, total: nat, sent: nat)
    requires o != [] && Linear(m, [], o, t.session.state) && VotesInv(m, t.session, h)
    ensures VotesInv(m, HandleAction(t, o[0], maxAttempts, total).session, RecordAction(h, o[0], total, sent))
  {
    hide HandleAction, VotesInv, Linear, SessionAfter, RecordAction, StateAfter;
    SessionAfterIs(t, o[0], maxAttempts, total);
    BeforeAction(m, o, t.session.state);
    VotesAfter(m, t.session, o[0], h, total, sent);
  }

  /** The session state in which an action finds the fsm task. */
  predicate FoundIn(m: Mode, a: Action, st: StateOfSession) {
    m != Steady ==>
      && (a == OnEntryBalance(SubStateBalanceMode.InHandshake) || a == OnEntryBalance(SubStateBalanceMode.OutHandshake) ==>
            st == NoSession || InPhase(st))
      && (a == OnEntryQuorum(CheckQuorumIn) || a == OnEntryQuorum(CheckQuorumOut) ==> InRound(st))
  }

  lemma BeforeAction(m: Mode, o: seq<Action>, st: StateOfSession)
    requires o != [] && Linear(m, [], o, st)
    ensures FoundIn(m, o[0], st)
  {
  }

  lemma VotesAfter(m: Mode, session: Session, a: Action, h: History, total: nat, sent: nat)
    requires FoundIn(m, a, session.state) && VotesInv(m, session, h)
    ensures VotesInv(m, SessionAfter(session, a), RecordAction(h, a, total, sent))
  {
    assert Cast([]) == {} && Emptied([], false) == {} && Emptied([], true) == {};
    hide Cast, Emptied;
  }

  function SessionAfter(s: Session, a: Action): Session {
    s.(state := StateAfter(s.state, a),
       attempts := AttemptsAfter(s.attempts, a),
       handshake := if a.OnEntryPhase? || a == OnEntryQuorum(RepeatHandshakeIn) || a == OnEntryQuorum(RepeatHandshakeOut)
                    then map[] else s.handshake,
       empty := if a.OnEntryPhase? || a.OnEntrySafeMode? then map[] else s.empty)
  }

  lemma SessionAfterIs(t: Task, a: Action, maxAttempts: nat, total: nat)
    ensures HandleAction(t, a, maxAttempts, total).session == SessionAfter(t.session, a)
  {
  }

  lemma ActionEvidence(m: Mode, t: Task, a: Action, h: History, maxAttempts: nat, total: nat, sent: nat)
    ensures var v := Verdict(|t.session.handshake|, t.session.attempts, maxAttempts, total);
            Evidence(m, if CountsVotes(a) then [v] else [], SessionAfter(t.session, a),
                     RecordAction(h, a, total, sent), maxAttempts)
  {
  }

  lemma VerdictOutOfAttempts(votes: nat, attempts: nat, maxAttempts: nat, total: nat)
    ensures Verdict(votes, attempts, maxAttempts, total) == NotApproveNotAttempts <==> attempts > maxAttempts
    ensures IsVerdict(Verdict(votes, attempts, maxAttempts, total))
  {
  }

  lemma RtcDoAction(s: Sys, maxAttempts: nat, total: nat)
    requires RtcInv(s, maxAttempts) && s.pending != []
    ensures RtcInv(ApplyDoAction(s, total, maxAttempts), maxAttempts)
  {
    hide HandleAction, Linear, TimerInv, BeatInv, VotesInv, Evidence, Tries, Verdict, SessionAfter, TimerCommandsOf, BeatActionsOf, StateAfter,
      AttemptsAfter, SessionOf;
    LagKept(s, DoAction(total), maxAttempts);
    var a := s.pending[0];
    var s' := ApplyDoAction(s, total, maxAttempts);
    var m, o := ModeOf(s.fsm), Outstanding(s);
    OutstandingAfter(s, DoAction(total), maxAttempts);
    assert o[0] == a && o[1..] == Outstanding(s');
    ActionSends(s.task, a, maxAttempts, total);
    SessionAfterIs(s.task, a, maxAttempts, total);
    ExecutingIsReplaying(s.task, a, maxAttempts, total);
    WorkMeansNoEvent(m, s.task.toFsm, o, s.task.session.state);
    var v := Verdict(|s.task.session.handshake|, s.task.session.attempts, maxAttempts, total);
    var es := s'.task.toFsm;
    assert es == if CountsVotes(a) then [v] else [];
    VerdictOutOfAttempts(|s.task.session.handshake|, s.task.session.attempts, maxAttempts, total);
    if CountsVotes(a) { CountingKeepsAttempts(s, m, o); }
    ActionControl(m, o, s.task.session.state, es, s.h.repeats, maxAttempts);
    ActionTimers(m, es, s.timer, s.task.toTimer, o);
    assert BeatsQueued(s') == BeatsQueued(s);
    ActionVotes(m, s.task, o, s.h, maxAttempts, total, |es|);
    ActionEvidence(m, s.task, a, s.h, maxAttempts, total, |es|);
  }

  lemma WorkMeansNoEvent(m: Mode, es: seq<Event>, o: seq<Action>, st: StateOfSession)
    requires Linear(m, es, o, st) && o != []
    ensures es == []
  {
  }

  /** When votes are counted, nothing else is outstanding, so the counter is the machine's own. */
  lemma CountingKeepsAttempts(s: Sys, m: Mode, o: seq<Action>)
    requires Lags(s) && o == Outstanding(s) && o != [] && CountsVotes(o[0])
    requires Linear(m, [], o, s.task.session.state)
    ensures s.task.session.attempts == s.h.repeats
  {
    assert o[1..] == [];
    assert ReplayAttempts(s.task.session.attempts, o) == ReplayAttempts(AttemptsAfter(s.task.session.attempts, o[0]), o[1..]);
  }

  // --- the environment, at quiescence ---------------------------------------------------------------

  lemma CommandControl(m: Mode, t: Task, c: Command, total: nat)
    requires Linear(m, [], [], t.session.state) && (m != Steady ==> t.session.state == SessionOf(m))
    ensures Linear(m, EventsOfCommand(t, c, total), [], t.session.state)
  {
  }

  lemma CommandTimers(m: Mode, t: Task, c: Command, total: nat, timer: Timer<Mode>)
    requires timer == Expected(m, []) && (m != Steady ==> t.session.state == SessionOf(m))
    ensures var es := EventsOfCommand(t, c, total);
            TimerInv(m, es, timer, if QuorumPhase in es || QuorumSafeMode in es then [TimerCmd.StopTimer] else [])
  {
    OneOrTwoCommands(timer, TimerCmd.StopTimer, TimerCmd.StopTimer);
  }

  lemma CastGrows(ballots: seq<Ballot>, b: Ballot)
    ensures Cast(ballots + [b]) == Cast(ballots) + if b.epoch == b.current then {b.sender} else {}
  {
    assert forall x :: x in ballots + [b] <==> x in ballots || x == b;
    if b.epoch == b.current {
      assert b in ballots + [b];
    }
    forall x | x in Cast(ballots) ensures x in Cast(ballots + [b]) {
      var y :| y in ballots && y.epoch == y.current && y.sender == x;
      assert y in ballots + [b];
    }
  }

  lemma EmptiedGrows(reports: seq<Report>, r: Report, safe: bool)
    ensures Emptied(reports + [r], safe) == Emptied(reports, safe) + if r.empty && r.safe == safe then {r.sender} else {}
  {
    assert forall x :: x in reports + [r] <==> x in reports || x == r;
    if r.empty && r.safe == safe {
      assert r in reports + [r];
    }
    forall x | x in Emptied(reports, safe) ensures x in Emptied(reports + [r], safe) {
      var y :| y in reports && y.empty && y.safe == safe && y.sender == x;
      assert y in reports + [r];
    }
  }

  lemma HandshakeVotes(m: Mode, t: Task, sender: HubId, epoch: nat, h: History, total: nat, sent: nat)
    requires VotesInv(m, t.session, h) && t.session.state != StateOfSession.Quorum
    ensures var c := FromHub(HandshakeFromHub(sender, epoch));
            VotesInv(m, HandleCommand(t, c, total).session, RecordCommand(h, c, t.epoch, total, sent))
  {
    CastGrows(h.ballots, Ballot(sender, epoch, t.epoch));
    hide Cast;
  }

  predicate Counted(t: Task, msg: HubMessage)
    requires msg.EmptyQueue? || msg.EmptyQueueSafe?
  {
    msg.empty && (if msg.EmptyQueue? then InPhase(t.session.state) else t.session.state == StateOfSession.SafeMode)
  }

  lemma ReportSession(t: Task, msg: HubMessage, total: nat)
    requires msg.EmptyQueue? || msg.EmptyQueueSafe?
    ensures HandleCommand(t, FromHub(msg), total).session ==
            if Counted(t, msg) then t.session.(empty := InsertOnce(t.session.empty, msg.sender, true)) else t.session
  {
  }

  lemma ReportVotes(m: Mode, t: Task, msg: HubMessage, h: History, total: nat, sent: nat)
    requires VotesInv(m, t.session, h) && (msg.EmptyQueue? || msg.EmptyQueueSafe?)
    ensures VotesInv(m, HandleCommand(t, FromHub(msg), total).session, RecordCommand(h, FromHub(msg), t.epoch, total, sent))
  {
    hide HandleCommand;
    var r := Report(msg.sender, msg.empty, msg.EmptyQueueSafe?);
    ReportSession(t, msg, total);
    EmptiedGrows(h.reports, r, false);
    EmptiedGrows(h.reports, r, true);
    hide Emptied, Cast;
    assert InsertOnce(t.session.empty, msg.sender, true).Keys == t.session.empty.Keys + {msg.sender};
  }

  lemma CommandVotes(m: Mode, t: Task, c: Command, h: History, total: nat, sent: nat)
    requires VotesInv(m, t.session, h) && (m != Steady ==> t.session.state != StateOfSession.Quorum)
    ensures VotesInv(m, HandleCommand(t, c, total).session, RecordCommand(h, c, t.epoch, total, sent))
  {
    if m != Steady {
      match c {
        case FromHub(HandshakeFromHub(sender, epoch)) => HandshakeVotes(m, t, sender, epoch, h, total, sent);
        case FromHub(EmptyQueue(_, _)) => ReportVotes(m, t, c.msg, h, total, sent);
        case FromHub(EmptyQueueSafe(_, _)) => ReportVotes(m, t, c.msg, h, total, sent);
        case _ =>
      }
    }
  }

  lemma CommandEvidence(m: Mode, t: Task, c: Command, h: History, maxAttempts: nat, total: nat, sent: nat)
    ensures Evidence(m, EventsOfCommand(t, c, total), HandleCommand(t, c, total).session,
                     RecordCommand(h, c, t.epoch, total, sent), maxAttempts)
  {
  }

  lemma QuietFacts(s: Sys, maxAttempts: nat)
    requires RtcInv(s, maxAttempts) && IsQuiet(s)
    ensures Outstanding(s) == [] && BeatsQueued(s) == []
    ensures ModeOf(s.fsm) !in {Booting, CheckIn, CheckOut}
    ensures ModeOf(s.fsm) != Steady ==>
              s.task.session.state == SessionOf(ModeOf(s.fsm)) && s.task.session.state != StateOfSession.Quorum
    ensures s.timer == Expected(ModeOf(s.fsm), [])
    ensures s.beatTimer == ExpectedBeat(ModeOf(s.fsm))
    ensures BeatOf(ModeOf(s.fsm)) != NoBeat ==> s.generator.beat == BeatOf(ModeOf(s.fsm))
    ensures s.task.session.attempts == s.h.repeats
  {
    hide VotesInv, Evidence, Tries;
    assert TimerStream(s.task.toTimer, Outstanding(s)) == [];
    assert BeatStream(s.generator, BeatsQueued(s), 0) == [];
  }

  lemma RtcReceive(s: Sys, c: Command, maxAttempts: nat, total: nat)
    requires RtcInv(s, maxAttempts) && IsQuiet(s)
    ensures RtcInv(ApplyReceive(s, c, total), maxAttempts)
  {
    hide Lags, RtcRest, ApplyReceive, IsQuiet;
    assert Enabled(s, Receive(c, total)) by { QuietListens(s); }
    LagKept(s, Receive(c, total), maxAttempts);
    RestOfReceive(s, c, maxAttempts, total);
  }

  lemma QuietListens(s: Sys)
    requires IsQuiet(s)
    ensures s.pending == []
  {
  }

  lemma RestOfReceive(s: Sys, c: Command, maxAttempts: nat, total: nat)
    requires RtcInv(s, maxAttempts) && IsQuiet(s)
    ensures WellFormed(ApplyReceive(s, c, total).fsm) && RtcRest(ApplyReceive(s, c, total), maxAttempts)
  {
    hide HandleCommand, EventsOfCommand, Linear, TimerInv, BeatInv, VotesInv, Evidence, Tries, Expected, Replay, ReplayAttempts, SessionOf;
    QuietFacts(s, maxAttempts);
    var s' := ApplyReceive(s, c, total);
    var m := ModeOf(s.fsm);
    CommandSends(s.task, c, total);
    CommandsKeepSession(s.task, c, total);
    CommandControl(m, s.task, c, total);
    CommandTimers(m, s.task, c, total, s.timer);
    assert Outstanding(s') == [];
    var es := EventsOfCommand(s.task, c, total);
    assert s'.task.toFsm == es;
    assert s'.task.toTimer == if QuorumPhase in es || QuorumSafeMode in es then [TimerCmd.StopTimer] else [];
    assert TimerStream(s'.task.toTimer, []) == s'.task.toTimer;
    assert BeatsQueued(s') == BeatsQueued(s);
    CommandVotes(m, s.task, c, s.h, total, |es|);
    CommandEvidence(m, s.task, c, s.h, maxAttempts, total, |es|);
    assert s'.h.repeats == s.h.repeats;
  }

  lemma RtcTimerFires(s: Sys, maxAttempts: nat)
    requires RtcInv(s, maxAttempts) && IsQuiet(s) && Enabled(s, TimerFires)
    ensures RtcInv(Apply(s, TimerFires, maxAttempts), maxAttempts)
    ensures Waits(ModeOf(s.fsm)) && s.timer == Armed(ModeOf(s.fsm))
  {
    hide BeatInv, Tries;
    LagKept(s, TimerFires, maxAttempts);
    QuietFacts(s, maxAttempts);
    var s' := Apply(s, TimerFires, maxAttempts);
    assert BeatsQueued(s') == BeatsQueued(s);
    assert TimerStream(s'.task.toTimer, Outstanding(s')) == [];
    VotesAreFramed(ModeOf(s.fsm), s.task.session, s.h, s'.h);
  }

  lemma RtcWatchdogReceives(s: Sys, maxAttempts: nat)
    requires RtcInv(s, maxAttempts) && Enabled(s, WatchdogReceives)
    ensures RtcInv(Apply(s, WatchdogReceives, maxAttempts), maxAttempts)
    ensures !(s.timer.Armed? && s.task.toTimer[0].InitTimer?)
  {
    hide Linear, BeatInv, VotesInv, Evidence, Tries;
    LagKept(s, WatchdogReceives, maxAttempts);
    var s' := Apply(s, WatchdogReceives, maxAttempts);
    assert Outstanding(s') == Outstanding(s) && BeatsQueued(s') == BeatsQueued(s);
    var stream := TimerStream(s.task.toTimer, Outstanding(s));
    assert stream[0] == s.task.toTimer[0];
    assert stream[1..] == TimerStream(s'.task.toTimer, Outstanding(s'));
  }

  lemma ObeyKeepsBeats(m: Mode, g: Generator, queued: seq<Action>, t: Timer<Beat>)
    requires BeatInv(m, g, queued, t, 0) && queued != []
    ensures BeatInv(m, Obey(g, queued[0]), queued[1..], t, 0)
  {
    ObeyKeepsStream(g, queued);
    assert BeatAfter(Obey(g, queued[0]).beat, queued[1..]) == BeatAfter(g.beat, queued);
    hide Obey, BeatStream, BeatAfter, BeatOf, ExpectedBeat, Clean, Feed;
  }

  lemma ObeyKeepsStream(g: Generator, queued: seq<Action>)
    requires queued != []
    ensures BeatStream(Obey(g, queued[0]), queued[1..], 0) == BeatStream(g, queued, 0)
  {
    hide BeatCommands;
  }

  lemma RtcGeneratorObeys(s: Sys, maxAttempts: nat)
    requires RtcInv(s, maxAttempts) && Enabled(s, GeneratorObeys)
    ensures RtcInv(Apply(s, GeneratorObeys, maxAttempts), maxAttempts)
  {
    hide Linear, TimerInv, VotesInv, Evidence, Tries, Obey, BeatStream;
    LagKept(s, GeneratorObeys, maxAttempts);
    var s' := Apply(s, GeneratorObeys, maxAttempts);
    assert Outstanding(s') == Outstanding(s);
    var queued := BeatsQueued(s);
    assert queued[0] == s.task.toHeartbeat[0] && queued[1..] == BeatsQueued(s');
    ObeyKeepsBeats(ModeOf(s.fsm), s.generator, queued, s.beatTimer);
  }

  lemma BeatCommandKept(m: Mode, g: Generator, queued: seq<Action>, t: Timer<Beat>, beatEvents: nat)
    requires BeatInv(m, g, queued, t, beatEvents) && g.toTimer != [] && Listens(t)
    ensures !(t.Armed? && g.toTimer[0].InitTimer?)
    ensures BeatInv(m, g.(toTimer := g.toTimer[1..]), queued, Watchdog.Receive(t, g.toTimer[0]), beatEvents)
  {
    var stream := BeatStream(g, queued, beatEvents);
    assert stream[0] == g.toTimer[0];
    assert stream[1..] == BeatStream(g.(toTimer := g.toTimer[1..]), queued, beatEvents);
  }

  lemma RtcBeatTimerReceives(s: Sys, maxAttempts: nat)
    requires RtcInv(s, maxAttempts) && Enabled(s, BeatTimerReceives)
    ensures RtcInv(Apply(s, BeatTimerReceives, maxAttempts), maxAttempts)
    ensures !(s.beatTimer.Armed? && s.generator.toTimer[0].InitTimer?)
  {
    hide Linear, TimerInv, BeatInv, VotesInv, Evidence, Tries;
    LagKept(s, BeatTimerReceives, maxAttempts);
    var s' := Apply(s, BeatTimerReceives, maxAttempts);
    assert Outstanding(s') == Outstanding(s) && BeatsQueued(s') == BeatsQueued(s);
    BeatCommandKept(ModeOf(s.fsm), s.generator, BeatsQueued(s), s.beatTimer, s.beatEvents);
  }

  lemma BeatOnceKept(m: Mode, g: Generator, queued: seq<Action>, t: Timer<Beat>)
    requires BeatInv(m, g, queued, t, 1)
    ensures BeatInv(m, BeatOnce(g), queued, t, 0)
  {
    assert BeatAfter(g.beat, []) == g.beat;
    assert BeatStream(BeatOnce(g), queued, 0) == BeatStream(g, queued, 1);
  }

  lemma BeatTimerEnds(m: Mode, g: Generator, t: Timer<Beat>)
    requires BeatInv(m, g, [], t, 0) && g.toTimer == [] && !t.Idle?
    ensures BeatInv(m, g, [], Idle, 1) && BeatOf(m) != NoBeat
  {
    assert BeatStream(g, [], 0) == [] && BeatStream(g, [], 1) == [InitTimer(g.beat)];
    OneOrTwoCommands<Beat>(Idle, InitTimer(g.beat), TimerCmd.StopTimer);
  }

  lemma RtcGeneratorBeats(s: Sys, maxAttempts: nat)
    requires RtcInv(s, maxAttempts) && Enabled(s, GeneratorBeats)
    ensures RtcInv(Apply(s, GeneratorBeats, maxAttempts), maxAttempts)
  {
    hide Linear, TimerInv, BeatInv, VotesInv, Evidence, Tries, BeatOnce;
    LagKept(s, GeneratorBeats, maxAttempts);
    var s' := Apply(s, GeneratorBeats, maxAttempts);
    assert Outstanding(s') == Outstanding(s) && BeatsQueued(s') == BeatsQueued(s);
    assert s.beatEvents == 1 by { BeatOnlyOnce(s, maxAttempts); }
    BeatOnceKept(ModeOf(s.fsm), s.generator, BeatsQueued(s), s.beatTimer);
  }

  lemma BeatOnlyOnce(s: Sys, maxAttempts: nat)
    requires RtcInv(s, maxAttempts)
    ensures s.beatEvents <= 1
  {
    hide Linear, TimerInv, VotesInv, Evidence, Tries;
  }

  lemma RtcBeatTimerFires(s: Sys, maxAttempts: nat)
    requires RtcInv(s, maxAttempts) && RtcEnabled(s, BeatTimerFires)
    ensures RtcInv(Apply(s, BeatTimerFires, maxAttempts), maxAttempts)
    ensures BeatOf(ModeOf(s.fsm)) != NoBeat
  {
    hide Linear, TimerInv, BeatInv, VotesInv, Evidence, Tries, BeatOf, ExpectedBeat;
    LagKept(s, BeatTimerFires, maxAttempts);
    QuietFacts(s, maxAttempts);
    var s' := Apply(s, BeatTimerFires, maxAttempts);
    assert Outstanding(s') == Outstanding(s) && BeatsQueued(s') == BeatsQueued(s) == [];
    BeatTimerEnds(ModeOf(s.fsm), s.generator, s.beatTimer);
  }

  /** The invariant of run-to-completion operation is kept by every step. */
  lemma RtcKept(s: Sys, l: Label, maxAttempts: nat)
    requires RtcInv(s, maxAttempts) && RtcEnabled(s, l)
    ensures RtcInv(Apply(s, l, maxAttempts), maxAttempts)
  {
    hide RtcInv, Step, HandleAction, HandleCommand;
    match l {
      case RunFsm => RtcRunFsm(s, maxAttempts);
      case TakeVector => RtcTakeVector(s, maxAttempts);
      case DoAction(total) => RtcDoAction(s, maxAttempts, total);
      case WatchdogReceives => RtcWatchdogReceives(s, maxAttempts);
      case GeneratorObeys => RtcGeneratorObeys(s, maxAttempts);
      case BeatTimerReceives => RtcBeatTimerReceives(s, maxAttempts);
      case GeneratorBeats => RtcGeneratorBeats(s, maxAttempts);
      case Receive(c, total) => RtcReceive(s, c, maxAttempts, total);
      case TimerFires => RtcTimerFires(s, maxAttempts);
      case BeatTimerFires => RtcBeatTimerFires(s, maxAttempts);
    }
  }

  lemma RtcTakeVector(s: Sys, maxAttempts: nat)
    requires RtcInv(s, maxAttempts) && Enabled(s, TakeVector)
    ensures RtcInv(Apply(s, TakeVector, maxAttempts), maxAttempts)
  {
    hide Linear, TimerInv, BeatInv, VotesInv, Evidence, Tries;
    LagKept(s, TakeVector, maxAttempts);
    var s' := Apply(s, TakeVector, maxAttempts);
    assert Outstanding(s') == Outstanding(s) && BeatsQueued(s') == BeatsQueued(s);
  }

  lemma RtcInit(maxAttempts: nat)
    ensures RtcInv(Init(), maxAttempts)
  {
    InitAsync();
    var s := Init();
    assert Outstanding(s) == [OnEntryBalance(InitBalanceMode)] by {
      assert s.actions[1..] == [];
      assert Flatten(s.actions) == s.actions[0] + Flatten<Action>([]);
    }
    GatherShort(TimerCommandsOf, Outstanding(s));
    GatherShort(BeatActionsOf, Outstanding(s));
    assert TimerStream(s.task.toTimer, Outstanding(s)) == [];
    assert BeatsQueued(s) == [];
    assert BeatStream(s.generator, [], 0) == [];
  }
}
