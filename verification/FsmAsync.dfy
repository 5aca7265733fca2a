/** Properties that hold under every interleaving of the FSM runtime's tasks. */
module FsmAsync {
  import opened Common
  import opened FsmDomain
  import opened FsmTask
  import opened Watchdog
  import opened FsmSystem

  // ---------------------------------------------------------------------------------------------
  // Lag simulation: the session is the machine, seen late.

  function StateAfter(st: StateOfSession, a: Action): StateOfSession {
    match a
    case OnEntryBalance(InHandshake) => StateOfSession.InHandshake
    case OnEntryBalance(OutHandshake) => StateOfSession.OutHandshake
    case OnEntryQuorum(CheckQuorumIn) | OnEntryQuorum(CheckQuorumOut) => StateOfSession.Quorum
    case OnEntryQuorum(RepeatHandshakeIn) | OnEntryQuorum(RepeatHandshakeOut) => StateOfSession.RepeatHandshake
    case OnEntryPhase(Alert) => PhaseAlert
    case OnEntryPhase(Data) => PhaseData
    case OnEntryPhase(Monitor) => PhaseMonitor
    case OnEntrySafeMode => StateOfSession.SafeMode
    case _ => st
  }

  function AttemptsAfter(n: nat, a: Action): nat {
    if a == OnEntryQuorum(RepeatHandshakeIn) || a == OnEntryQuorum(RepeatHandshakeOut) then n + 1
    else if a.OnEntryPhase? then 0 else n
  }

  function Replay(st: StateOfSession, acts: seq<Action>): StateOfSession
    decreases |acts|
  {
    if acts == [] then st else Replay(StateAfter(st, acts[0]), acts[1..])
  }

  function ReplayAttempts(n: nat, acts: seq<Action>): nat
    decreases |acts|
  {
    if acts == [] then n else ReplayAttempts(AttemptsAfter(n, acts[0]), acts[1..])
  }

  lemma {:induction false} ReplayAppend(st: StateOfSession, n: nat, a: seq<Action>, b: seq<Action>)
    ensures Replay(st, a + b) == Replay(Replay(st, a), b)
    ensures ReplayAttempts(n, a + b) == ReplayAttempts(ReplayAttempts(n, a), b)
    decreases |a|
  {
    if a == [] {
      assert a + b == b;
    } else {
      assert (a + b)[0] == a[0] && (a + b)[1..] == a[1..] + b;
      ReplayAppend(StateAfter(st, a[0]), AttemptsAfter(n, a[0]), a[1..], b);
    }
  }

  /** The session state that belongs to a mode; Normal leaves it as it was. */
  function SessionOf(m: Mode): StateOfSession {
    match m
    case Booting | AwaitingEpoch | Steady => NoSession
    case HandshakeIn => StateOfSession.InHandshake
    case CheckIn | CheckOut => StateOfSession.Quorum
    case RepeatIn | RepeatOut => StateOfSession.RepeatHandshake
    case AlertPhase => PhaseAlert
    case DataPhase => PhaseData
    case MonitorPhase => PhaseMonitor
    case HandshakeOut => StateOfSession.OutHandshake
    case Safe => StateOfSession.SafeMode
  }

  ghost predicate Lags(s: Sys) {
    && WellFormed(s.fsm)
    && (ModeOf(s.fsm) != Steady ==> Replay(s.task.session.state, Outstanding(s)) == SessionOf(ModeOf(s.fsm)))
    && ReplayAttempts(s.task.session.attempts, Outstanding(s)) == s.h.repeats
  }

  lemma LagsIsWellFormed(s: Sys)
    requires Lags(s)
    ensures WellFormed(s.fsm)
    ensures ModeOf(s.fsm) != Steady ==> Replay(s.task.session.state, Outstanding(s)) == SessionOf(ModeOf(s.fsm))
  {
  }

  lemma ExecutingIsReplaying(t: Task, a: Action, maxAttempts: nat, total: nat)
    ensures HandleAction(t, a, maxAttempts, total).session.state == StateAfter(t.session.state, a)
    ensures HandleAction(t, a, maxAttempts, total).session.attempts == AttemptsAfter(t.session.attempts, a)
  {
  }

  function ReplayThree(st: StateOfSession, acts: seq<Action>): StateOfSession {
    var s1 := if |acts| > 0 then StateAfter(st, acts[0]) else st;
    var s2 := if |acts| > 1 then StateAfter(s1, acts[1]) else s1;
    if |acts| > 2 then StateAfter(s2, acts[2]) else s2
  }

  function AttemptsThree(n: nat, acts: seq<Action>): nat {
    var n1 := if |acts| > 0 then AttemptsAfter(n, acts[0]) else n;
    var n2 := if |acts| > 1 then AttemptsAfter(n1, acts[1]) else n1;
    if |acts| > 2 then AttemptsAfter(n2, acts[2]) else n2
  }

  lemma {:induction false} ReplayShort(st: StateOfSession, n: nat, acts: seq<Action>)
    requires |acts| <= 3
    ensures Replay(st, acts) == ReplayThree(st, acts)
    ensures ReplayAttempts(n, acts) == AttemptsThree(n, acts)
    decreases |acts|
  {
    if acts != [] {
      ReplayShort(StateAfter(st, acts[0]), AttemptsAfter(n, acts[0]), acts[1..]);
    }
  }

  function RepeatsAfter(m: Mode, to: Mode, n: nat): nat {
    if m == to then n
    else if to in {AlertPhase, DataPhase, MonitorPhase} then 0
    else if to == RepeatIn || to == RepeatOut then n + 1 else n
  }

  /** The repeat rounds of the opening handshake, noted as the machine enters Alert. */
  function OpeningAfter(m: Mode, to: Mode, n: nat, opening: nat): nat {
    if to == AlertPhase && m != to then n else opening
  }

  /** What the arrow table guarantees about the two ends of an arrow. */
  predicate ArrowShape(m: Mode, to: Mode) {
    && to != Booting
    && (to == AwaitingEpoch ==> m == Booting)
    && (m == to ==> to in {HandshakeIn, RepeatIn, HandshakeOut, RepeatOut})
  }

  lemma ArrowIsShaped(m: Mode, e: Event, to: Mode)
    requires Target(m, e) == Some(to)
    ensures ArrowShape(m, to)
  {
  }

  lemma EmittedThreeStates(m: Mode, e: Event, to: Mode)
    requires ArrowShape(m, to)
    ensures |Emitted(m, e, to)| <= 3
    ensures to != Steady ==> ReplayThree(SessionOf(m), Emitted(m, e, to)) == SessionOf(to)
  {
    if to in {AwaitingEpoch, HandshakeIn, CheckIn, RepeatIn} {
    } else if to in {HandshakeOut, CheckOut, RepeatOut} {
    } else {
    }
  }

  lemma EmittedThreeAttempts(m: Mode, e: Event, to: Mode, n: nat)
    requires ArrowShape(m, to)
    ensures AttemptsThree(n, Emitted(m, e, to)) == RepeatsAfter(m, to, n)
  {
    if to in {AwaitingEpoch, HandshakeIn, CheckIn, RepeatIn} {
    } else if to in {HandshakeOut, CheckOut, RepeatOut} {
    } else {
    }
  }

  lemma EmittedReplays(m: Mode, e: Event, to: Mode, n: nat)
    requires Target(m, e) == Some(to)
    ensures to != Steady ==> Replay(SessionOf(m), Emitted(m, e, to)) == SessionOf(to)
    ensures ReplayAttempts(n, Emitted(m, e, to)) == RepeatsAfter(m, to, n)
  {
    assert ArrowShape(m, to);
    hide Target;
    EmittedThreeStates(m, e, to);
    EmittedThreeAttempts(m, e, to, n);
    hide Emitted;
    ReplayShort(SessionOf(m), n, Emitted(m, e, to));
  }

  lemma ModesCountRepeats(s: FsmState, s': FsmState, n: nat)
    requires WellFormed(s) && WellFormed(s')
    ensures CountRepeats(s, s', n) == RepeatsAfter(ModeOf(s), ModeOf(s'), n)
  {
  }

  lemma LagKept(s: Sys, l: Label, maxAttempts: nat)
    requires Lags(s) && Enabled(s, l)
    ensures Lags(Apply(s, l, maxAttempts))
  {
    hide Step, HandleAction, HandleCommand;
    var s' := Apply(s, l, maxAttempts);
    OutstandingAfter(s, l, maxAttempts);
    match l {
      case RunFsm =>
        var e := s.task.toFsm[0];
        StepIsFlat(s.fsm, e);
        if Step(s.fsm, e).Valid? {
          var m := ModeOf(s.fsm);
          var to := ModeOf(s'.fsm);
          ReplayAppend(s.task.session.state, s.task.session.attempts, Outstanding(s), Emitted(m, e, to));
          EmittedReplays(m, e, to, s.h.repeats);
          ModesCountRepeats(s.fsm, s'.fsm, s.h.repeats);
        }
      case DoAction(total) =>
        ExecutingIsReplaying(s.task, s.pending[0], maxAttempts, total);
        var rest := Outstanding(s');
        assert ([s.pending[0]] + rest)[1..] == rest;
      case Receive(c, total) =>
        CommandsKeepSession(s.task, c, total);
      case _ =>
    }
  }

  lemma CommandsKeepSession(t: Task, c: Command, total: nat)
    ensures HandleCommand(t, c, total).session.state == t.session.state
    ensures HandleCommand(t, c, total).session.attempts == t.session.attempts
  {
  }

  // ---------------------------------------------------------------------------------------------
  // Verdicts of the first handshake never reach the last one.

  /** Events that can move the machine from one phase to the next. */
  predicate Advances(e: Event) { e.Timeout? || e.QuorumPhase? }

  predicate IsVerdict(e: Event) { e.ApproveQuorum? || e.NotApproveQuorum? || e.NotApproveNotAttempts? }

  function CountAdvances(es: seq<Event>): nat {
    if es == [] then 0 else (if Advances(es[0]) then 1 else 0) + CountAdvances(es[1..])
  }

  function CountInits(cs: seq<TimerCmd<Mode>>): nat {
    if cs == [] then 0 else (if cs[0].InitTimer? then 1 else 0) + CountInits(cs[1..])
  }

  predicate Arms(a: Action) { OpensRound(a) || a.OnEntryPhase? || a.OnEntrySafeMode? }

  /** Timers that will be armed before the Alert entry action is executed. */
  function ArmsBeforeAlert(acts: seq<Action>): nat {
    if acts == [] || acts[0] == OnEntryPhase(Alert) then 0
    else (if Arms(acts[0]) then 1 else 0) + ArmsBeforeAlert(acts[1..])
  }

  /** Alert is the first phase entered, and no votes are counted after it. */
  predicate AlertComesFirst(acts: seq<Action>) {
    || acts == []
    || (acts[0] == OnEntryPhase(Alert) && NoVoteCounts(acts[1..]))
    || (!acts[0].OnEntryPhase? && AlertComesFirst(acts[1..]))
  }

  predicate NoVoteCounts(acts: seq<Action>) { forall a :: a in acts ==> !CountsVotes(a) }

  predicate NoVerdicts(es: seq<Event>) { forall e :: e in es ==> !IsVerdict(e) }

  lemma {:induction false} CountsAppend(a: seq<Event>, b: seq<Event>, c: seq<TimerCmd<Mode>>, d: seq<TimerCmd<Mode>>)
    ensures CountAdvances(a + b) == CountAdvances(a) + CountAdvances(b)
    ensures CountInits(c + d) == CountInits(c) + CountInits(d)
    decreases |a| + |c|
  {
    if a != [] {
      assert (a + b)[0] == a[0] && (a + b)[1..] == a[1..] + b;
      CountsAppend(a[1..], b, c, d);
    } else if c != [] {
      assert a + b == b;
      assert (c + d)[0] == c[0] && (c + d)[1..] == c[1..] + d;
      CountsAppend(a, b, c[1..], d);
    } else {
      assert a + b == b && c + d == d;
    }
  }

  lemma {:induction false} ActionsAppend(a: seq<Action>, b: seq<Action>)
    ensures OnEntryPhase(Alert) !in a ==> ArmsBeforeAlert(a + b) == ArmsBeforeAlert(a) + ArmsBeforeAlert(b)
    ensures OnEntryPhase(Alert) in a ==> ArmsBeforeAlert(a + b) == ArmsBeforeAlert(a)
    ensures OnEntryPhase(Alert) !in a && AlertComesFirst(a) && AlertComesFirst(b) ==> AlertComesFirst(a + b)
    ensures AlertComesFirst(a) && OnEntryPhase(Alert) in a && NoVoteCounts(b) ==> AlertComesFirst(a + b)
  {
    if a == [] {
      assert a + b == b;
    } else {
      assert (a + b)[0] == a[0] && (a + b)[1..] == a[1..] + b;
      ActionsAppend(a[1..], b);
    }
  }

  predicate BeforeAlert(m: Mode) { m in {Booting, AwaitingEpoch, HandshakeIn, CheckIn, RepeatIn} }

  predicate Final(m: Mode) { m == Safe || m == Steady }

  /** Phases passed, counting from Alert. */
  function Rank(m: Mode): nat {
    match m
    case AlertPhase => 1
    case DataPhase => 2
    case MonitorPhase => 3
    case HandshakeOut | CheckOut | RepeatOut => 4
    case _ => 0
  }

  /** What the accounting looks at: the machine's mode, the event channel and how much of its back was
      sent after the Alert entry, the watchdog and its commands, the outstanding actions. */
  datatype Ledger = Ledger(
    mode: Mode,
    sent: seq<Event>,
    recent: nat,
    running: bool,
    commands: seq<TimerCmd<Mode>>,
    queued: seq<Action>,
    session: StateOfSession,
    entered: bool)

  function LedgerOf(s: Sys): Ledger
    requires WellFormed(s.fsm)
  {
    Ledger(ModeOf(s.fsm), s.task.toFsm, s.h.recent, !s.timer.Idle?, s.task.toTimer, Outstanding(s),
           s.task.session.state, s.h.alertEntered)
  }

  /** Everything that is or may still become a timeout before Alert is entered by the fsm task. */
  function Tokens(l: Ledger): nat {
    CountAdvances(l.sent) + (if l.running then 1 else 0) + CountInits(l.commands) + ArmsBeforeAlert(l.queued)
  }

  /** Before Alert is entered: at most one timeout per open handshake round, and after the machine's own
      move into Alert at most one left over, so it cannot get beyond Data. */
  predicate Budget(m: Mode, tokens: int, alertQueued: bool) {
    && (BeforeAlert(m) ==> !alertQueued && tokens <= (if m == HandshakeIn || m == RepeatIn then 1 else 0))
    && (!BeforeAlert(m) && !Final(m) ==> alertQueued && 1 <= Rank(m) && Rank(m) + tokens <= 2)
  }

  ghost predicate NotYetInAlert(l: Ledger) {
    && l.recent == 0
    && AlertComesFirst(l.queued)
    && (Final(l.mode) || !InPhase(l.session))
    && Budget(l.mode, Tokens(l), OnEntryPhase(Alert) in l.queued)
  }

  /** Events sent before the fsm task executed the Alert entry. */
  function Older(l: Ledger): seq<Event>
    requires l.recent <= |l.sent|
  {
    l.sent[..|l.sent| - l.recent]
  }

  function Newer(l: Ledger): seq<Event>
    requires l.recent <= |l.sent|
  {
    l.sent[|l.sent| - l.recent..]
  }

  ghost predicate PastAlert(l: Ledger) {
    && l.recent <= |l.sent|
    && !BeforeAlert(l.mode)
    && (Rank(l.mode) > 0 && Older(l) != [] ==> Rank(l.mode) + CountAdvances(Older(l)) <= 2)
    && (1 <= Rank(l.mode) <= 3 ==> NoVerdicts(Newer(l)) && NoVoteCounts(l.queued))
  }

  ghost predicate Balanced(l: Ledger) { if l.entered then PastAlert(l) else NotYetInAlert(l) }

  ghost predicate Accounts(s: Sys) { WellFormed(s.fsm) && Balanced(LedgerOf(s)) }

  function ArmsAt(acts: seq<Action>, i: nat): nat { if i < |acts| && Arms(acts[i]) then 1 else 0 }

  lemma {:induction false} ShortArms(acts: seq<Action>)
    requires |acts| <= 3 && OnEntryPhase(Alert) !in acts
    ensures ArmsBeforeAlert(acts) == ArmsAt(acts, 0) + ArmsAt(acts, 1) + ArmsAt(acts, 2)
    decreases |acts|
  {
    if acts != [] {
      ShortArms(acts[1..]);
    }
  }

  lemma {:induction false} AlertLast(acts: seq<Action>)
    requires forall i :: 0 <= i < |acts| ==> (acts[i].OnEntryPhase? ==> acts[i] == OnEntryPhase(Alert) && i == |acts| - 1)
    ensures AlertComesFirst(acts)
  {
    if acts != [] && !acts[0].OnEntryPhase? {
      AlertLast(acts[1..]);
    }
  }

  /** Bookkeeping facts about one emission. */
  ghost predicate EmissionFacts(m: Mode, to: Mode, acts: seq<Action>) {
    && (OnEntryPhase(Alert) in acts <==> to == AlertPhase)
    && (to in {DataPhase, MonitorPhase, Safe, Steady} || (to == HandshakeOut && m != to) ==> NoVoteCounts(acts))
    && (to !in {DataPhase, MonitorPhase} ==> AlertComesFirst(acts))
    && (BeforeAlert(to) ==> ArmsBeforeAlert(acts) == if m != to && to in {HandshakeIn, RepeatIn} then 1 else 0)
    && (to == AlertPhase ==> ArmsBeforeAlert(acts) == 0)
  }

  lemma HandshakeEmission(m: Mode, e: Event, to: Mode)
    requires ArrowShape(m, to) && BeforeAlert(to)
    ensures EmissionFacts(m, to, Emitted(m, e, to))
  {
    ShortArms(Emitted(m, e, to));
    AlertLast(Emitted(m, e, to));
  }

  lemma AlertEmission(m: Mode, e: Event)
    ensures EmissionFacts(m, AlertPhase, Emitted(m, e, AlertPhase))
  {
    var acts := Emitted(m, e, AlertPhase);
    AlertLast(acts);
    ActionsAppend([Action.StopTimer, OnEntryBalance(Phase)], [OnEntryPhase(Alert)]);
    ShortArms([Action.StopTimer, OnEntryBalance(Phase)]);
    assert acts == [Action.StopTimer, OnEntryBalance(Phase)] + [OnEntryPhase(Alert)];
  }

  lemma LaterEmission(m: Mode, e: Event, to: Mode)
    requires ArrowShape(m, to) && !BeforeAlert(to) && to != AlertPhase
    ensures EmissionFacts(m, to, Emitted(m, e, to))
  {
    if to !in {DataPhase, MonitorPhase} {
      AlertLast(Emitted(m, e, to));
    }
  }

  lemma EmittedAccounts(m: Mode, e: Event, to: Mode)
    requires ArrowShape(m, to)
    ensures EmissionFacts(m, to, Emitted(m, e, to))
  {
    if BeforeAlert(to) { HandshakeEmission(m, e, to); }
    else if to == AlertPhase { AlertEmission(m, e); }
    else { LaterEmission(m, e, to); }
  }

  // --- each kind of step, on ledgers -------------------------------------------------------------

  function PopEvent(l: Ledger): Ledger
    requires l.sent != []
  {
    l.(sent := l.sent[1..], recent := Min(l.recent, |l.sent| - 1))
  }

  lemma PopSplits(l: Ledger)
    requires l.sent != [] && l.recent <= |l.sent|
    ensures var l' := PopEvent(l);
            && l'.recent <= |l'.sent|
            && (if Older(l) == [] then Older(l') == [] && Newer(l') == Newer(l)[1..]
                else Older(l') == Older(l)[1..] && Newer(l') == Newer(l) && Older(l)[0] == l.sent[0])
  {
  }

  lemma RejectedEvent(l: Ledger)
    requires Balanced(l) && l.sent != []
    ensures Balanced(PopEvent(l))
  {
    if l.entered {
      PopSplits(l);
    } else {
      assert Tokens(PopEvent(l)) <= Tokens(l);
    }
  }

  lemma BudgetKept(m: Mode, e: Event, to: Mode, tokens: nat, alertQueued: bool)
    requires Target(m, e) == Some(to) && Budget(m, tokens, alertQueued)
    requires Advances(e) ==> tokens >= 1
    ensures var spent := if Advances(e) then 1 else 0;
            var armed := if !alertQueued && m != to && to in {HandshakeIn, RepeatIn} then 1 else 0;
            Budget(to, tokens - spent + armed, alertQueued || to == AlertPhase)
    ensures alertQueued ==> Final(to) || to == DataPhase
    ensures !alertQueued ==> to !in {DataPhase, MonitorPhase}
    ensures Final(m) ==> Final(to)
    ensures Final(to) ==> alertQueued ==> Final(m)
  {
  }

  lemma ArrowBeforeAlert(l: Ledger, e: Event, to: Mode, acts: seq<Action>)
    requires NotYetInAlert(l) && l.sent != [] && e == l.sent[0]
    requires Target(l.mode, e) == Some(to) && EmissionFacts(l.mode, to, acts)
    ensures NotYetInAlert(PopEvent(l).(mode := to, queued := l.queued + acts))
  {
    var l' := PopEvent(l).(mode := to, queued := l.queued + acts);
    ActionsAppend(l.queued, acts);
    BudgetKept(l.mode, e, to, Tokens(l), OnEntryPhase(Alert) in l.queued);
    if !Final(to) {
      assert CountAdvances(l.sent) == (if Advances(e) then 1 else 0) + CountAdvances(l'.sent);
    }
  }

  lemma RankGrows(m: Mode, e: Event, to: Mode)
    requires Target(m, e) == Some(to) && !BeforeAlert(m)
    ensures !BeforeAlert(to)
    ensures Rank(to) > 0 ==> 1 <= Rank(m) <= Rank(to) <= Rank(m) + 1
    ensures 1 <= Rank(m) <= 3 ==> Advances(e) && Rank(to) == Rank(m) + 1
    ensures 1 <= Rank(to) <= 3 ==> to in {DataPhase, MonitorPhase} && 1 <= Rank(m) <= 2
  {
  }

  lemma PhasesCountNoVotes(m: Mode, to: Mode, acts: seq<Action>)
    requires EmissionFacts(m, to, acts) && to in {DataPhase, MonitorPhase}
    ensures NoVoteCounts(acts)
  {
  }

  /** `Older` and `Newer` look only at the channel. */
  lemma MoveKeepsSplit(l: Ledger, to: Mode, queued: seq<Action>)
    requires l.recent <= |l.sent|
    ensures Older(l.(mode := to, queued := queued)) == Older(l)
    ensures Newer(l.(mode := to, queued := queued)) == Newer(l)
  {
  }

  lemma PopThenMove(l: Ledger, to: Mode, acts: seq<Action>)
    requires l.sent != [] && l.recent <= |l.sent|
    ensures var l' := PopEvent(l).(mode := to, queued := l.queued + acts);
            && l'.recent <= |l'.sent|
            && (if Older(l) == [] then Older(l') == [] && Newer(l) != [] && Newer(l') == Newer(l)[1..]
                else Older(l') == Older(l)[1..] && Newer(l') == Newer(l) && Older(l)[0] == l.sent[0])
  {
    PopSplits(l);
    if Older(l) == [] { NewerWhenNoneOlder(l); }
    MoveKeepsSplit(PopEvent(l), to, l.queued + acts);
    hide Older, Newer;
  }

  lemma NewerWhenNoneOlder(l: Ledger)
    requires l.sent != [] && l.recent <= |l.sent| && Older(l) == []
    ensures Newer(l) != []
  {
  }

  lemma ArrowPastAlert(l: Ledger, e: Event, to: Mode, acts: seq<Action>)
    requires PastAlert(l) && l.sent != [] && e == l.sent[0]
    requires Target(l.mode, e) == Some(to) && EmissionFacts(l.mode, to, acts)
    ensures PastAlert(PopEvent(l).(mode := to, queued := l.queued + acts))
  {
    hide EmissionFacts, NoVoteCounts, NoVerdicts, Older, Newer, CountAdvances;
    RankGrows(l.mode, e, to);
    if 1 <= Rank(to) <= 3 {
      PhasesCountNoVotes(l.mode, to, acts);
    }
    hide Target, Advances;
    PopThenMove(l, to, acts);
    var l' := PopEvent(l).(mode := to, queued := l.queued + acts);
    hide BeforeAlert, PopEvent;
    OlderBudget(Rank(l.mode), Rank(to), Older(l), Older(l'), Advances(e));
    if 1 <= Rank(to) <= 3 {
      VerdictFree(Newer(l), Newer(l'), l.queued, acts);
    }
  }

  lemma OlderBudget(r: nat, r': nat, older: seq<Event>, older': seq<Event>, advances: bool)
    requires r' > 0 ==> 1 <= r <= r' <= r + 1
    requires 1 <= r <= 3 ==> advances && r' == r + 1
    requires r > 0 && older != [] ==> r + CountAdvances(older) <= 2
    requires if older == [] then older' == [] else older' == older[1..] && Advances(older[0]) == advances
    ensures r' > 0 && older' != [] ==> r' + CountAdvances(older') <= 2
  {
  }

  lemma VerdictFree(newer: seq<Event>, newer': seq<Event>, queued: seq<Action>, acts: seq<Action>)
    requires newer' == newer || (newer != [] && newer' == newer[1..])
    requires NoVerdicts(newer) && NoVoteCounts(queued) && NoVoteCounts(acts)
    ensures NoVerdicts(newer') && NoVoteCounts(queued + acts)
  {
  }

  lemma ArrowBalanced(l: Ledger, e: Event, to: Mode, acts: seq<Action>)
    requires Balanced(l) && l.sent != [] && e == l.sent[0]
    requires Target(l.mode, e) == Some(to) && EmissionFacts(l.mode, to, acts)
    ensures Balanced(PopEvent(l).(mode := to, queued := l.queued + acts))
  {
    if l.entered { ArrowPastAlert(l, e, to, acts); } else { ArrowBeforeAlert(l, e, to, acts); }
  }

  /** Append events at the back of the channel. */
  function Send(l: Ledger, es: seq<Event>): Ledger {
    l.(sent := l.sent + es, recent := if l.entered then l.recent + |es| else l.recent)
  }

  lemma SendSplits(l: Ledger, es: seq<Event>)
    requires l.recent <= |l.sent| && l.entered
    ensures Send(l, es).recent <= |Send(l, es).sent|
    ensures Older(Send(l, es)) == Older(l)
    ensures Newer(Send(l, es)) == Newer(l) + es
  {
  }

  lemma ActionPastAlert(l: Ledger, es: seq<Event>, commands: seq<TimerCmd<Mode>>, st: StateOfSession)
    requires PastAlert(l) && l.entered && l.queued != []
    requires !CountsVotes(l.queued[0]) ==> es == []
    ensures PastAlert(Send(l, es).(commands := commands, queued := l.queued[1..], session := st))
  {
    var l1 := Send(l, es);
    var l' := l1.(commands := commands, queued := l.queued[1..], session := st);
    SendSplits(l, es);
    assert Older(l') == Older(l1) && Newer(l') == Newer(l1);
    assert l.queued[0] in l.queued;
  }

  lemma CommandCount(a: Action)
    ensures CountInits(TimerCommandsOf(a)) == if Arms(a) then 1 else 0
  {
    var cs := TimerCommandsOf(a);
    if cs != [] {
      assert cs == [cs[0]] && cs[1..] == [];
    }
  }

  lemma ActionBeforeAlert(l: Ledger, es: seq<Event>, st: StateOfSession)
    requires NotYetInAlert(l) && !l.entered && l.queued != [] && l.queued[0] != OnEntryPhase(Alert)
    requires CountAdvances(es) == 0 && st == StateAfter(l.session, l.queued[0])
    ensures NotYetInAlert(Send(l, es).(commands := l.commands + TimerCommandsOf(l.queued[0]),
                                       queued := l.queued[1..], session := st))
  {
    var a := l.queued[0];
    var l' := Send(l, es).(commands := l.commands + TimerCommandsOf(a), queued := l.queued[1..], session := st);
    CountsAppend(l.sent, es, l.commands, TimerCommandsOf(a));
    CommandCount(a);
    hide TimerCommandsOf, Arms;
    assert Tokens(l') == Tokens(l);
    assert OnEntryPhase(Alert) in l.queued <==> OnEntryPhase(Alert) in l.queued[1..];
  }

  /** One executed action that is not the Alert entry. */
  lemma ActionBalanced(l: Ledger, es: seq<Event>, st: StateOfSession)
    requires Balanced(l) && l.queued != [] && (!l.entered ==> l.queued[0] != OnEntryPhase(Alert))
    requires CountAdvances(es) == 0 && (!CountsVotes(l.queued[0]) ==> es == [])
    requires st == StateAfter(l.session, l.queued[0])
    ensures Balanced(Send(l, es).(commands := l.commands + TimerCommandsOf(l.queued[0]),
                                  queued := l.queued[1..], session := st))
  {
    hide PastAlert, NotYetInAlert;
    if l.entered {
      ActionPastAlert(l, es, l.commands + TimerCommandsOf(l.queued[0]), st);
    } else {
      ActionBeforeAlert(l, es, st);
    }
  }

  lemma AlertEntryBalanced(l: Ledger, commands: seq<TimerCmd<Mode>>, st: StateOfSession)
    requires Balanced(l) && !l.entered && l.queued != [] && l.queued[0] == OnEntryPhase(Alert)
    ensures Balanced(l.(commands := commands, queued := l.queued[1..], session := st, entered := true))
  {
    var l' := l.(commands := commands, queued := l.queued[1..], session := st, entered := true);
    assert Older(l') == l.sent && Newer(l') == [];
  }

  lemma ReceiveBalanced(l: Ledger, es: seq<Event>, cancel: seq<TimerCmd<Mode>>)
    requires Balanced(l)
    requires NoVerdicts(es) && (!InPhase(l.session) ==> CountAdvances(es) == 0)
    requires cancel == [] || cancel == [TimerCmd.StopTimer]
    ensures Balanced(Send(l, es).(commands := l.commands + cancel))
  {
    var l' := Send(l, es).(commands := l.commands + cancel);
    if l.entered {
      SendSplits(l, es);
      assert Older(l') == Older(Send(l, es)) && Newer(l') == Newer(Send(l, es));
    } else if !Final(l.mode) {
      CountsAppend(l.sent, es, l.commands, cancel);
      assert CountInits(cancel) == 0;
    }
  }

  lemma FireBalanced(l: Ledger)
    requires Balanced(l) && l.running
    ensures Balanced(Send(l, [Timeout]).(running := false))
  {
    var l' := Send(l, [Timeout]).(running := false);
    if l.entered {
      SendSplits(l, [Timeout]);
      assert Older(l') == Older(Send(l, [Timeout])) && Newer(l') == Newer(Send(l, [Timeout]));
    } else {
      CountsAppend(l.sent, [Timeout], [], []);
      assert [Timeout][1..] == [];
      assert Tokens(l') == Tokens(l);
    }
  }

  lemma CommandBalanced(l: Ledger, running: bool)
    requires Balanced(l) && l.commands != []
    requires running ==> l.running || l.commands[0].InitTimer?
    ensures Balanced(l.(commands := l.commands[1..], running := running))
  {
    var l' := l.(commands := l.commands[1..], running := running);
    if l.entered {
      assert Older(l') == Older(l) && Newer(l') == Newer(l);
    } else {
      assert Tokens(l') <= Tokens(l);
    }
  }

  // --- and on the runtime ------------------------------------------------------------------------

  lemma LedgerAfterArrow(s: Sys)
    requires WellFormed(s.fsm) && s.task.toFsm != [] && Step(s.fsm, s.task.toFsm[0]).Valid?
    ensures var s', e, l := ApplyRunFsm(s), s.task.toFsm[0], LedgerOf(s);
            && WellFormed(s'.fsm) && Target(l.mode, e) == Some(ModeOf(s'.fsm))
            && LedgerOf(s') == PopEvent(l).(mode := ModeOf(s'.fsm),
                                            queued := l.queued + Emitted(l.mode, e, ModeOf(s'.fsm)))
  {
    hide Step, Emitted, Target, CountRepeats;
    var e, s' := s.task.toFsm[0], ApplyRunFsm(s);
    StepIsFlat(s.fsm, e);
    FlattenAppend(s.actions, Emitted(ModeOf(s.fsm), e, ModeOf(s'.fsm)));
    assert Outstanding(s') == Outstanding(s) + Emitted(ModeOf(s.fsm), e, ModeOf(s'.fsm));
    hide Outstanding;
  }

  lemma LedgerAfterRejection(s: Sys)
    requires WellFormed(s.fsm) && s.task.toFsm != [] && Step(s.fsm, s.task.toFsm[0]).Invalid?
    ensures ApplyRunFsm(s).fsm == s.fsm && LedgerOf(ApplyRunFsm(s)) == PopEvent(LedgerOf(s))
  {
    hide Step;
    assert Outstanding(ApplyRunFsm(s)) == Outstanding(s);
    hide Outstanding;
  }

  lemma RunFsmAccounts(s: Sys)
    requires Accounts(s) && s.task.toFsm != []
    ensures Accounts(ApplyRunFsm(s))
  {
    hide Step, Balanced, Emitted, EmissionFacts, ApplyRunFsm, PopEvent, LedgerOf, ModeOf, WellFormed, Target;
    var e, l := s.task.toFsm[0], LedgerOf(s);
    LedgerSent(s);
    if Step(s.fsm, e).Valid? {
      LedgerAfterArrow(s);
      var to := ModeOf(ApplyRunFsm(s).fsm);
      ArrowIsShaped(l.mode, e, to);
      EmittedAccounts(l.mode, e, to);
      ArrowBalanced(l, e, to, Emitted(l.mode, e, to));
    } else {
      LedgerAfterRejection(s);
      RejectedEvent(l);
    }
  }

  lemma LedgerSent(s: Sys)
    requires WellFormed(s.fsm)
    ensures LedgerOf(s).sent == s.task.toFsm
  {
  }

  lemma DoActionAccounts(s: Sys, maxAttempts: nat, total: nat)
    requires Accounts(s) && s.pending != []
    ensures Accounts(ApplyDoAction(s, total, maxAttempts))
  {
    hide HandleAction, Balanced, Verdict, StateAfter, TimerCommandsOf;
    var a := s.pending[0];
    var s' := ApplyDoAction(s, total, maxAttempts);
    var l := LedgerOf(s);
    OutstandingAfter(s, DoAction(total), maxAttempts);
    assert l.queued[0] == a && l.queued[1..] == Outstanding(s');
    ActionSends(s.task, a, maxAttempts, total);
    ExecutingIsReplaying(s.task, a, maxAttempts, total);
    if !l.entered && a == OnEntryPhase(Alert) {
      AlertEntryBalanced(l, s'.task.toTimer, s'.task.session.state);
      assert LedgerOf(s') == l.(commands := s'.task.toTimer, queued := l.queued[1..],
                                session := s'.task.session.state, entered := true) by { RecentIsZero(l); }
    } else {
      var es := s'.task.toFsm[|s.task.toFsm|..];
      VerdictsAreVerdicts(|s.task.session.handshake|, s.task.session.attempts, maxAttempts, total);
      assert s'.task.toFsm == s.task.toFsm + es;
      if !l.entered { RecentIsZero(l); }
      ActionBalanced(l, es, s'.task.session.state);
      assert LedgerOf(s') == Send(l, es).(commands := l.commands + TimerCommandsOf(a), queued := l.queued[1..],
                                          session := s'.task.session.state);
    }
  }

  lemma RecentIsZero(l: Ledger)
    requires Balanced(l) && !l.entered
    ensures l.recent == 0
  {
  }

  lemma VerdictsAreVerdicts(votes: nat, attempts: nat, maxAttempts: nat, total: nat)
    ensures IsVerdict(Verdict(votes, attempts, maxAttempts, total))
    ensures CountAdvances([Verdict(votes, attempts, maxAttempts, total)]) == 0
  {
    assert [Verdict(votes, attempts, maxAttempts, total)][1..] == [];
  }

  lemma CommandEvents(t: Task, c: Command, total: nat)
    ensures var es := EventsOfCommand(t, c, total);
            NoVerdicts(es) && (!InPhase(t.session.state) ==> CountAdvances(es) == 0)
  {
    var es := EventsOfCommand(t, c, total);
    if es != [] {
      assert es == [es[0]] && es[1..] == [];
    }
  }

  lemma ReceiveAccounts(s: Sys, c: Command, total: nat)
    requires Accounts(s) && s.pending == []
    ensures Accounts(ApplyReceive(s, c, total))
  {
    hide HandleCommand, Balanced, EventsOfCommand;
    var s' := ApplyReceive(s, c, total);
    var l := LedgerOf(s);
    CommandSends(s.task, c, total);
    CommandsKeepSession(s.task, c, total);
    CommandEvents(s.task, c, total);
    var es := EventsOfCommand(s.task, c, total);
    var cancel := s'.task.toTimer[|s.task.toTimer|..];
    if !l.entered { RecentIsZero(l); }
    ReceiveBalanced(l, es, cancel);
    assert LedgerOf(s') == Send(l, es).(commands := l.commands + cancel);
  }

  lemma AccountsKept(s: Sys, l: Label, maxAttempts: nat)
    requires Accounts(s) && Enabled(s, l)
    ensures Accounts(Apply(s, l, maxAttempts))
  {
    hide HandleAction, HandleCommand, Step, Balanced;
    var s' := Apply(s, l, maxAttempts);
    match l {
      case RunFsm => RunFsmAccounts(s);
      case DoAction(total) => DoActionAccounts(s, maxAttempts, total);
      case Receive(c, total) => ReceiveAccounts(s, c, total);
      case TimerFires =>
        if !s.h.alertEntered { RecentIsZero(LedgerOf(s)); }
        FireBalanced(LedgerOf(s));
        assert LedgerOf(s') == Send(LedgerOf(s), [Timeout]).(running := false);
      case WatchdogReceives =>
        CommandBalanced(LedgerOf(s), !s'.timer.Idle?);
      case _ =>
        OutstandingAfter(s, l, maxAttempts);
        assert LedgerOf(s') == LedgerOf(s);
    }
  }

  // ---------------------------------------------------------------------------------------------
  // All reachable states.

  ghost predicate AsyncInv(s: Sys) { Lags(s) && Accounts(s) }

  lemma InitAsync()
    ensures AsyncInv(Init())
  {
    var s := Init();
    assert Outstanding(s) == [OnEntryBalance(InitBalanceMode)] by {
      assert s.actions[1..] == [];
      assert Flatten(s.actions) == s.actions[0] + Flatten<Action>([]);
    }
    assert [OnEntryBalance(InitBalanceMode)][1..] == [];
  }

  lemma {:induction false} AsyncAlong(s: Sys, ls: seq<Label>, maxAttempts: nat)
    requires AsyncInv(s) && Schedule(s, ls, maxAttempts)
    ensures AsyncInv(Execute(s, ls, maxAttempts))
    decreases |ls|
  {
    hide Lags, Accounts, Apply, Enabled;
    if ls != [] {
      LagKept(s, ls[0], maxAttempts);
      AccountsKept(s, ls[0], maxAttempts);
      AsyncAlong(Apply(s, ls[0], maxAttempts), ls[1..], maxAttempts);
    }
  }

  /** In every interleaving, executing the actions still queued would bring the session exactly to the
      machine's present mode (and the attempt counter to the machine's own count of repeat rounds). */
  lemma SessionLagsMachine(ls: seq<Label>, maxAttempts: nat)
    requires Schedule(Init(), ls, maxAttempts)
    ensures var s := Execute(Init(), ls, maxAttempts);
            && WellFormed(s.fsm)
            && (ModeOf(s.fsm) != Steady ==> Replay(s.task.session.state, Outstanding(s)) == SessionOf(ModeOf(s.fsm)))
            && ReplayAttempts(s.task.session.attempts, Outstanding(s)) == s.h.repeats
  {
    InitAsync();
    AsyncAlong(Init(), ls, maxAttempts);
  }

  /** In every interleaving: when the machine enters OutHandshake, no verdict is left in its event channel
      and no vote count is queued. So every verdict that later takes it to Normal (or to safe mode) was
      computed after that moment, from the votes of the last handshake. */
  lemma VerdictsAreNotReused(ls: seq<Label>, maxAttempts: nat)
    requires Schedule(Init(), ls, maxAttempts)
    requires Enabled(Execute(Init(), ls, maxAttempts), RunFsm)
    ensures var s := Execute(Init(), ls, maxAttempts);
            var s' := Apply(s, RunFsm, maxAttempts);
            WellFormed(s.fsm) && WellFormed(s'.fsm)
            && (ModeOf(s.fsm) == MonitorPhase && ModeOf(s'.fsm) == HandshakeOut ==>
                  NoVerdicts(s'.task.toFsm) && NoVoteCounts(Outstanding(s')))
  {
    hide Lags, Accounts, Apply;
    InitAsync();
    AsyncAlong(Init(), ls, maxAttempts);
    EnteringTheLastHandshake(Execute(Init(), ls, maxAttempts), maxAttempts);
  }

  lemma EnteringTheLastHandshake(s: Sys, maxAttempts: nat)
    requires Accounts(s) && Enabled(s, RunFsm)
    ensures var s' := Apply(s, RunFsm, maxAttempts);
            && WellFormed(s.fsm) && WellFormed(s'.fsm)
            && (ModeOf(s.fsm) == MonitorPhase && ModeOf(s'.fsm) == HandshakeOut ==>
                  NoVerdicts(s'.task.toFsm) && NoVoteCounts(Outstanding(s')))
  {
    hide Step, Balanced, Emitted, CountRepeats;
    var s' := Apply(s, RunFsm, maxAttempts);
    var e := s.task.toFsm[0];
    StepIsFlat(s.fsm, e);
    if ModeOf(s.fsm) == MonitorPhase && ModeOf(s'.fsm) == HandshakeOut {
      MonitorIsClean(LedgerOf(s));
      EmittedAccounts(MonitorPhase, e, HandshakeOut);
      FlattenAppend(s.actions, Emitted(MonitorPhase, e, HandshakeOut));
      assert Outstanding(s') == Outstanding(s) + Emitted(MonitorPhase, e, HandshakeOut);
    }
  }

  lemma MonitorIsClean(l: Ledger)
    requires Balanced(l) && l.mode == MonitorPhase
    ensures NoVerdicts(l.sent) && NoVoteCounts(l.queued)
  {
    if l.entered {
      assert Older(l) == [];
      assert Newer(l) == l.sent;
    }
  }

  /** In every interleaving: whatever the machine reads in Monitor or during the last handshake was sent
      after the Alert entry action cleared the votes of the first. */
  lemma NothingStaleAfterData(ls: seq<Label>, maxAttempts: nat)
    requires Schedule(Init(), ls, maxAttempts)
    ensures var s := Execute(Init(), ls, maxAttempts);
            WellFormed(s.fsm)
            && (ModeOf(s.fsm) in {MonitorPhase, HandshakeOut, CheckOut, RepeatOut} ==>
                  s.h.alertEntered && s.h.recent == |s.task.toFsm|)
  {
    InitAsync();
    AsyncAlong(Init(), ls, maxAttempts);
    var s := Execute(Init(), ls, maxAttempts);
    var l := LedgerOf(s);
    if l.entered && Rank(l.mode) >= 3 {
      assert Older(l) == [];
    }
  }
}
