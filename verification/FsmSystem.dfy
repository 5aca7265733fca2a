/** The whole FSM runtime of src/fsm/domain.rs:86-160 as one transition system: `run_fsm`, the `fsm`
    task, the watchdog, the heartbeat generator and its watchdog, joined by FIFO channels. A step is one
    receive by one task, or one act of the environment (a command from the core, a timer running out). */
module FsmSystem {
  import opened Common
  import opened FsmDomain
  import opened FsmTask
  import opened Watchdog

  /** A handshake message, with the epoch that was current when it was received. */
  datatype Ballot = Ballot(sender: HubId, epoch: nat, current: nat)

  datatype Report = Report(sender: HubId, empty: bool, safe: bool)

  /** History variables: they record what happened and influence nothing. */
  datatype History = History(
    ballots: seq<Ballot>,   // handshake messages since the current round was opened
    reports: seq<Report>,   // empty-queue reports since the current phase (or safe mode) was entered
    lastTotal: nat,         // hub count read by the latest vote count
    repeats: nat,           // moves of the machine into a repeat handshake since its last phase
    alertEntered: bool,     // the fsm task has executed the Alert entry action
    recent: nat,            // events at the back of toFsm sent after that moment
    opening: nat)           // repeat rounds of the opening handshake, once Alert is entered

  datatype Sys = Sys(
    fsm: FsmState,               // run_fsm's variable
    actions: seq<seq<Action>>,   // channel run_fsm -> fsm
    pending: seq<Action>,        // rest of the vector the fsm task is executing
    task: Task,                  // fsm task with its outgoing channels
    timer: Timer<Mode>,
    generator: Generator,
    beatTimer: Timer<Beat>,
    beatEvents: nat,             // timeouts waiting for the generator
    h: History)

  datatype Label =
    | RunFsm | TakeVector | DoAction(total: nat) | WatchdogReceives
    | GeneratorObeys | BeatTimerReceives | GeneratorBeats
    | Receive(cmd: Command, total: nat) | TimerFires | BeatTimerFires

  predicate External(l: Label) { l.Receive? || l.TimerFires? || l.BeatTimerFires? }

  /** The runtime just after `run_fsm` has handled `Event::Start`. */
  function Init(): Sys {
    Sys(StateOf(AwaitingEpoch, 0), [[OnEntryBalance(InitBalanceMode)]], [], NEW_TASK, Idle,
        NEW_GENERATOR, Idle, 0, History([], [], 0, 0, false, 0, 0))
  }

  predicate Enabled(s: Sys, l: Label) {
    match l
    case RunFsm => s.task.toFsm != []
    case TakeVector => s.pending == [] && s.actions != []
    case DoAction(_) => s.pending != []
    case WatchdogReceives => Listens(s.timer) && s.task.toTimer != []
    case GeneratorObeys => s.task.toHeartbeat != []
    case BeatTimerReceives => Listens(s.beatTimer) && s.generator.toTimer != []
    case GeneratorBeats => s.beatEvents > 0
    case Receive(_, _) => s.pending == []
    case TimerFires => !s.timer.Idle?
    case BeatTimerFires => !s.beatTimer.Idle?
  }

  function CountRepeats(old_: FsmState, new_: FsmState, repeats: nat): nat {
    if new_.phase.Some? && new_.phase != old_.phase then 0
    else if new_.quorum != old_.quorum
            && (new_.quorum == Some(RepeatHandshakeIn) || new_.quorum == Some(RepeatHandshakeOut)) then repeats + 1
    else repeats
  }

  function ApplyRunFsm(s: Sys): Sys
    requires s.task.toFsm != []
  {
    var rest := s.task.toFsm[1..];
    var s1 := s.(task := s.task.(toFsm := rest), h := s.h.(recent := Min(s.h.recent, |rest|)));
    match Step(s.fsm, s.task.toFsm[0])
    case Invalid => s1
    case Valid(next, acts) =>
      s1.(fsm := next, actions := s.actions + [acts],
          h := s1.h.(repeats := CountRepeats(s.fsm, next, s.h.repeats),
                     opening := if next.phase == Some(Alert) && s.fsm.phase != next.phase then s.h.repeats else s.h.opening))
  }

  predicate OpensRound(a: Action) {
    || a == OnEntryBalance(SubStateBalanceMode.InHandshake)
    || a == OnEntryBalance(SubStateBalanceMode.OutHandshake)
    || a == OnEntryQuorum(RepeatHandshakeIn) || a == OnEntryQuorum(RepeatHandshakeOut)
  }

  predicate CountsVotes(a: Action) {
    a.CalculateQuorum? || a == OnEntryQuorum(CheckQuorumIn) || a == OnEntryQuorum(CheckQuorumOut)
  }

  function RecordAction(h: History, a: Action, total: nat, sent: nat): History {
    h.(ballots := if OpensRound(a) then [] else h.ballots,
       reports := if a.OnEntryPhase? || a.OnEntrySafeMode? then [] else h.reports,
       lastTotal := if CountsVotes(a) then total else h.lastTotal,
       alertEntered := h.alertEntered || a == OnEntryPhase(Alert),
       recent := if h.alertEntered then h.recent + sent else 0)
  }

  function ApplyDoAction(s: Sys, total: nat, maxAttempts: nat): Sys
    requires s.pending != []
  {
    var a := s.pending[0];
    var t := HandleAction(s.task, a, maxAttempts, total);
    s.(pending := s.pending[1..], task := t,
       h := RecordAction(s.h, a, total, Max(|t.toFsm|, |s.task.toFsm|) - |s.task.toFsm|))
  }

  function RecordCommand(h: History, c: Command, current: nat, total: nat, sent: nat): History {
    var h1 := h.(recent := if h.alertEntered then h.recent + sent else 0);
    match c
    case FromHub(HandshakeFromHub(sender, epoch)) => h1.(ballots := h.ballots + [Ballot(sender, epoch, current)])
    case FromHub(EmptyQueue(sender, empty)) => h1.(reports := h.reports + [Report(sender, empty, false)], lastTotal := total)
    case FromHub(EmptyQueueSafe(sender, empty)) => h1.(reports := h.reports + [Report(sender, empty, true)], lastTotal := total)
    case _ => h1
  }

  function ApplyReceive(s: Sys, c: Command, total: nat): Sys {
    var t := HandleCommand(s.task, c, total);
    s.(task := t, h := RecordCommand(s.h, c, s.task.epoch, total, Max(|t.toFsm|, |s.task.toFsm|) - |s.task.toFsm|))
  }

  function Apply(s: Sys, l: Label, maxAttempts: nat): Sys
    requires Enabled(s, l)
  {
    match l
    case RunFsm => ApplyRunFsm(s)
    case TakeVector => s.(pending := s.actions[0], actions := s.actions[1..])
    case DoAction(total) => ApplyDoAction(s, total, maxAttempts)
    case WatchdogReceives =>
      s.(timer := Watchdog.Receive(s.timer, s.task.toTimer[0]), task := s.task.(toTimer := s.task.toTimer[1..]))
    case GeneratorObeys =>
      s.(generator := Obey(s.generator, s.task.toHeartbeat[0]), task := s.task.(toHeartbeat := s.task.toHeartbeat[1..]))
    case BeatTimerReceives =>
      s.(beatTimer := Watchdog.Receive(s.beatTimer, s.generator.toTimer[0]),
         generator := s.generator.(toTimer := s.generator.toTimer[1..]))
    case GeneratorBeats => s.(generator := BeatOnce(s.generator), beatEvents := s.beatEvents - 1)
    case Receive(c, total) => ApplyReceive(s, c, total)
    case TimerFires =>
      s.(timer := Idle, task := SendFsm(s.task, Timeout),
         h := s.h.(recent := if s.h.alertEntered then s.h.recent + 1 else 0))
    case BeatTimerFires => s.(beatTimer := Idle, beatEvents := s.beatEvents + 1)
  }

  /** A schedule: any interleaving whose every step is possible. */
  ghost predicate Schedule(s: Sys, ls: seq<Label>, maxAttempts: nat)
    decreases |ls|
  {
    ls == [] || (Enabled(s, ls[0]) && Schedule(Apply(s, ls[0], maxAttempts), ls[1..], maxAttempts))
  }

  ghost function Execute(s: Sys, ls: seq<Label>, maxAttempts: nat): Sys
    requires Schedule(s, ls, maxAttempts)
    decreases |ls|
  {
    if ls == [] then s else Execute(Apply(s, ls[0], maxAttempts), ls[1..], maxAttempts)
  }

  /** Actions emitted by the machine and not yet executed, in order. */
  function Outstanding(s: Sys): seq<Action> { s.pending + Flatten(s.actions) }

  predicate IsQuiet(s: Sys) {
    && s.task.toFsm == [] && s.actions == [] && s.pending == [] && s.task.toTimer == []
    && s.task.toHeartbeat == [] && s.generator.toTimer == [] && s.beatEvents == 0
  }

  lemma OutstandingAfter(s: Sys, l: Label, maxAttempts: nat)
    requires Enabled(s, l)
    ensures var s' := Apply(s, l, maxAttempts);
            && (l.RunFsm? && Step(s.fsm, s.task.toFsm[0]).Valid? ==>
                  Outstanding(s') == Outstanding(s) + Step(s.fsm, s.task.toFsm[0]).actions)
            && (l.DoAction? ==> Outstanding(s) == [s.pending[0]] + Outstanding(s'))
            && (!(l.RunFsm? && Step(s.fsm, s.task.toFsm[0]).Valid?) && !l.DoAction? ==>
                  Outstanding(s') == Outstanding(s))
  {
    hide Step, HandleAction, HandleCommand;
    if l.RunFsm? && Step(s.fsm, s.task.toFsm[0]).Valid? {
      FlattenAppend(s.actions, Step(s.fsm, s.task.toFsm[0]).actions);
    }
  }

  // --- what one step of the fsm task sends -------------------------------------------------------

  /** The entry actions that start the watchdog, and in whose name. */
  function OwnerOf(a: Action): Option<Mode> {
    match a
    case OnEntryBalance(InHandshake) => Some(HandshakeIn)
    case OnEntryBalance(OutHandshake) => Some(HandshakeOut)
    case OnEntryQuorum(RepeatHandshakeIn) => Some(RepeatIn)
    case OnEntryQuorum(RepeatHandshakeOut) => Some(RepeatOut)
    case OnEntryPhase(Alert) => Some(AlertPhase)
    case OnEntryPhase(Data) => Some(DataPhase)
    case OnEntryPhase(Monitor) => Some(MonitorPhase)
    case OnEntrySafeMode => Some(Safe)
    case _ => None
  }

  function TimerCommandsOf(a: Action): seq<TimerCmd<Mode>> {
    if OwnerOf(a).Some? then [InitTimer(OwnerOf(a).value)]
    else if a == Action.StopTimer then [TimerCmd.StopTimer] else []
  }

  function BeatActionsOf(a: Action): seq<Action> {
    match a
    case OnEntryPhase(Alert) => [SendHeartbeatMessagePhase]
    case OnEntryNormal => [SendHeartbeatMessageNormal]
    case OnEntrySafeMode => [SendHeartbeatMessageSafeMode]
    case StopSendHeartbeatMessagePhase | StopSendHeartbeatMessageSafeMode => [a]
    case _ => []
  }

  lemma ActionSends(t: Task, a: Action, maxAttempts: nat, total: nat)
    ensures var t' := HandleAction(t, a, maxAttempts, total);
            && t'.toFsm == t.toFsm + (if CountsVotes(a)
                                      then [Verdict(|t.session.handshake|, t.session.attempts, maxAttempts, total)]
                                      else [])
            && t'.toTimer == t.toTimer + TimerCommandsOf(a)
            && t'.toHeartbeat == t.toHeartbeat + BeatActionsOf(a)
            && t'.epoch == t.epoch
  {
  }

  /** What an action sends to the core, with the epoch it is executed in. */
  function CoreMessagesOf(a: Action, epoch: nat): seq<CoreMessage> {
    match a
    case OnEntryBalance(InitBalanceMode) => [GetEpoch]
    case OnEntryBalance(InHandshake) => [HandshakeToHub(In, epoch)]
    case OnEntryBalance(OutHandshake) => [HandshakeToHub(Out, epoch)]
    case OnEntryQuorum(RepeatHandshakeIn) => [HandshakeToHub(In, epoch)]
    case OnEntryQuorum(RepeatHandshakeOut) => [HandshakeToHub(Out, epoch)]
    case OnEntryPhase(p) => [PhaseNotification(p, epoch)]
    case _ => []
  }

  /** And to the task that reports the gateway's state. */
  function EdgeStatesOf(a: Action): seq<StateGlobal> {
    match a
    case OnEntryNormal => [Normal]
    case OnEntrySafeMode => [StateGlobal.SafeMode]
    case _ => []
  }

  /** The two channels `ActionSends` leaves out. */
  lemma ActionReports(t: Task, a: Action, maxAttempts: nat, total: nat)
    ensures var t' := HandleAction(t, a, maxAttempts, total);
            t'.toCore == t.toCore + CoreMessagesOf(a, t.epoch) && t'.toEdge == t.toEdge + EdgeStatesOf(a)
  {
  }

  /** The events a command makes the task send, and whether it also cancels the watchdog. */
  function EventsOfCommand(t: Task, c: Command, total: nat): seq<Event> {
    match c
    case FromHub(HandshakeFromHub(_, epoch)) =>
      if ListensForHandshakes(t.session.state) && epoch == t.epoch then [NewMessageHandshake] else []
    case FromHub(EmptyQueue(sender, empty)) =>
      if InPhase(t.session.state) && empty
         && Reaches(|InsertOnce(t.session.empty, sender, true)|, total, PHASE_PERCENTAGE) then [QuorumPhase] else []
    case FromHub(EmptyQueueSafe(sender, empty)) =>
      if t.session.state == StateOfSession.SafeMode && empty
         && Reaches(|InsertOnce(t.session.empty, sender, true)|, total, SAFE_PERCENTAGE) then [QuorumSafeMode] else []
    case ErrorEpoch => [BalanceEpochNotOk]
    case Epoch(_) => [BalanceEpochOk]
    case _ => []
  }

  lemma CommandSends(t: Task, c: Command, total: nat)
    ensures var t' := HandleCommand(t, c, total);
            && t'.toFsm == t.toFsm + EventsOfCommand(t, c, total)
            && t'.toTimer == t.toTimer + (if QuorumPhase in EventsOfCommand(t, c, total)
                                             || QuorumSafeMode in EventsOfCommand(t, c, total)
                                          then [TimerCmd.StopTimer] else [])
            && t'.toHeartbeat == t.toHeartbeat
  {
  }
}
