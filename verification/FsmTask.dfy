/** The `fsm` task of src/fsm/logic.rs: it owns the vote maps and the attempt counter, executes the
    machine's actions and answers hub messages. Channels are unbounded FIFO sequences. Every function
    here has an imperative counterpart in FsmTaskClasses.dfy. */
module FsmTask {
  import opened Common
  import opened FsmDomain
  import opened Watchdog

  type HubId = string

  datatype StateOfSession =
    | NoSession | InHandshake | Quorum | RepeatHandshake | OutHandshake
    | PhaseAlert | PhaseData | PhaseMonitor | SafeMode

  /** Value of an `UpdateSession`. */
  datatype Session = Session(
    empty: map<HubId, bool>,
    handshake: map<HubId, nat>,
    state: StateOfSession,
    attempts: nat)

  const NEW_SESSION := Session(map[], map[], NoSession, 0)

  datatype Flag = In | Out

  /** What the task sends to the core (and through it to the hubs). */
  datatype CoreMessage =
    | GetEpoch
    | NewEpoch(epoch: nat)
    | HandshakeToHub(flag: Flag, epoch: nat)
    | PhaseNotification(phase: SubStatePhase, epoch: nat)

  /** The task's variables and its outgoing channels. `toFsm` is shared with the watchdog. */
  datatype Task = Task(
    epoch: nat,
    session: Session,
    toFsm: seq<Event>,
    toTimer: seq<TimerCmd<Mode>>,
    toHeartbeat: seq<Action>,
    toCore: seq<CoreMessage>,
    toEdge: seq<StateGlobal>)

  const NEW_TASK := Task(0, NEW_SESSION, [], [], [], [], [])

  datatype HubMessage =
    | HandshakeFromHub(sender: HubId, epoch: nat)
    | EmptyQueue(sender: HubId, empty: bool)
    | EmptyQueueSafe(sender: HubId, empty: bool)
    | OtherHubMessage

  datatype Command = FromHub(msg: HubMessage) | ErrorEpoch | Epoch(epoch: nat) | OtherCommand

  // --- votes -------------------------------------------------------------------------------------

  const PERCENTAGE := 80
  const PHASE_PERCENTAGE := 80
  const SAFE_PERCENTAGE := 70
  const U32 := 0x1_0000_0000

  function Threshold(attempts: nat): int {
    PERCENTAGE - 5 * (if attempts >= 1 then attempts - 1 else 0)
  }

  /** `(n as f64 / total as f64) * 100.0 >= percent`, exactly. With `total == 0`, n/0 is infinity and
      passes, 0/0 is NaN and does not. */
  predicate Reaches(n: nat, total: nat, percent: int) {
    if total == 0 then n > 0 else 100 * n >= percent * total
  }

  function Verdict(votes: nat, attempts: nat, maxAttempts: nat, total: nat): Event {
    if attempts > maxAttempts then NotApproveNotAttempts
    else if Reaches(votes, total, Threshold(attempts)) && Threshold(attempts) > 10 then ApproveQuorum
    else NotApproveQuorum
  }

  /** The last attempt count at which a handshake can still be approved. */
  function LastChance(maxAttempts: nat): nat { Min(maxAttempts, 14) }

  /** Exactly when a handshake round is approved, and when it is given up. */
  lemma ApprovedIff(votes: nat, attempts: nat, maxAttempts: nat, total: nat)
    ensures Verdict(votes, attempts, maxAttempts, total) == NotApproveNotAttempts <==> attempts > maxAttempts
    ensures Verdict(votes, attempts, maxAttempts, total) == ApproveQuorum <==>
            && attempts <= LastChance(maxAttempts)
            && (if total == 0 then votes > 0
                else 100 * votes >= (80 - 5 * (if attempts <= 1 then 0 else attempts - 1)) * total)
  {
  }

  /** The guard `threshold > 10` decides some verdict if and only if more than 14 attempts are
      configured; with the shipped value 14 it is redundant. */
  lemma GuardMattersIff(maxAttempts: nat)
    ensures (exists votes: nat, attempts: nat, total: nat {:trigger Verdict(votes, attempts, maxAttempts, total)} ::
               && attempts <= maxAttempts
               && Reaches(votes, total, Threshold(attempts))
               && Verdict(votes, attempts, maxAttempts, total) != ApproveQuorum)
            <==> maxAttempts > 14
  {
    if maxAttempts > 14 {
      assert Reaches(1, 0, Threshold(15));
      assert Verdict(1, 15, maxAttempts, 0) != ApproveQuorum;
    }
  }

  // --- actions -----------------------------------------------------------------------------------

  function SetState(t: Task, st: StateOfSession): Task { t.(session := t.session.(state := st)) }

  function StartTimer(t: Task, owner: Mode): Task { t.(toTimer := t.toTimer + [InitTimer(owner)]) }

  function SendCore(t: Task, m: CoreMessage): Task { t.(toCore := t.toCore + [m]) }

  function SendHeartbeat(t: Task, a: Action): Task { t.(toHeartbeat := t.toHeartbeat + [a]) }

  function SendFsm(t: Task, e: Event): Task { t.(toFsm := t.toFsm + [e]) }

  function QuorumAlgorithm(t: Task, maxAttempts: nat, total: nat): Task {
    SendFsm(t, Verdict(|t.session.handshake|, t.session.attempts, maxAttempts, total))
  }

  function EnterRepeat(t: Task, owner: Mode, flag: Flag): Task {
    var s := t.session.(state := StateOfSession.RepeatHandshake, attempts := t.session.attempts + 1, handshake := map[]);
    StartTimer(SendCore(t.(session := s), HandshakeToHub(flag, t.epoch)), owner)
  }

  function EnterPhase(t: Task, p: SubStatePhase): Task {
    var st := match p case Alert => PhaseAlert case Data => PhaseData case Monitor => PhaseMonitor;
    var owner := match p case Alert => AlertPhase case Data => DataPhase case Monitor => MonitorPhase;
    var s := Session(map[], map[], st, 0);
    var t1 := SendCore(StartTimer(t.(session := s), owner), PhaseNotification(p, t.epoch));
    if p.Alert? then SendHeartbeat(t1, SendHeartbeatMessagePhase) else t1
  }

  /** `handle_action`; `total` is the hub count read from the network manager when it is needed. */
  function HandleAction(t: Task, a: Action, maxAttempts: nat, total: nat): Task {
    match a
    case OnEntryBalance(b) =>
      (match b
       case InitBalanceMode => SendCore(t, GetEpoch)
       case InHandshake =>
         StartTimer(SendCore(SetState(t, StateOfSession.InHandshake), HandshakeToHub(In, t.epoch)), HandshakeIn)
       case OutHandshake =>
         StartTimer(SendCore(SetState(t, StateOfSession.OutHandshake), HandshakeToHub(Out, t.epoch)), HandshakeOut)
       case _ => t)
    case OnEntryQuorum(q) =>
      (match q
       case CheckQuorumIn | CheckQuorumOut =>
         QuorumAlgorithm(SetState(t, StateOfSession.Quorum), maxAttempts, total)
       case RepeatHandshakeIn => EnterRepeat(t, RepeatIn, In)
       case RepeatHandshakeOut => EnterRepeat(t, RepeatOut, Out))
    case CalculateQuorum => QuorumAlgorithm(t, maxAttempts, total)
    case OnEntryPhase(p) => EnterPhase(t, p)
    case OnEntryNormal => SendHeartbeat(t, SendHeartbeatMessageNormal).(toEdge := t.toEdge + [Normal])
    case OnEntrySafeMode =>
      var s := t.session.(empty := map[], state := StateOfSession.SafeMode);
      SendHeartbeat(StartTimer(t.(session := s), Safe), SendHeartbeatMessageSafeMode)
      .(toEdge := t.toEdge + [StateGlobal.SafeMode])
    case StopTimer => t.(toTimer := t.toTimer + [TimerCmd.StopTimer])
    case StopSendHeartbeatMessagePhase | StopSendHeartbeatMessageSafeMode => SendHeartbeat(t, a)
    case _ => t
  }

  /** One vector of actions, executed in order; `totals[i]` is the hub count at action i. */
  function HandleActions(t: Task, acts: seq<Action>, maxAttempts: nat, totals: seq<nat>): Task
    requires |totals| == |acts|
  {
    if acts == [] then t
    else
      var n := |acts| - 1;
      HandleAction(HandleActions(t, acts[..n], maxAttempts, totals[..n]), acts[n], maxAttempts, totals[n])
  }

  // --- commands ----------------------------------------------------------------------------------

  predicate ListensForHandshakes(st: StateOfSession) {
    st in {StateOfSession.InHandshake, StateOfSession.OutHandshake, StateOfSession.RepeatHandshake}
  }

  predicate InPhase(st: StateOfSession) { st in {PhaseAlert, PhaseData, PhaseMonitor} }

  function InsertOnce<V>(m: map<HubId, V>, k: HubId, v: V): map<HubId, V> {
    if k in m then m else m[k := v]
  }

  function CountEmpty(t: Task, sender: HubId, total: nat, percent: int, approved: Event): Task {
    var s := t.session.(empty := InsertOnce(t.session.empty, sender, true));
    var t1 := t.(session := s);
    if Reaches(|s.empty|, total, percent) then
      SendFsm(t1, approved).(toTimer := t.toTimer + [TimerCmd.StopTimer])
    else t1
  }

  function HandleHub(t: Task, msg: HubMessage, total: nat): Task {
    match msg
    case HandshakeFromHub(sender, epoch) =>
      if ListensForHandshakes(t.session.state) && epoch == t.epoch then
        SendFsm(t.(session := t.session.(handshake := InsertOnce(t.session.handshake, sender, epoch))),
                NewMessageHandshake)
      else t
    case EmptyQueue(sender, empty) =>
      if InPhase(t.session.state) && empty then CountEmpty(t, sender, total, PHASE_PERCENTAGE, QuorumPhase) else t
    case EmptyQueueSafe(sender, empty) =>
      if t.session.state == StateOfSession.SafeMode && empty then
        CountEmpty(t, sender, total, SAFE_PERCENTAGE, QuorumSafeMode)
      else t
    case OtherHubMessage => t
  }

  function HandleCommand(t: Task, c: Command, total: nat): Task {
    match c
    case FromHub(msg) => HandleHub(t, msg, total)
    case ErrorEpoch => SendFsm(t, BalanceEpochNotOk)
    case Epoch(e) =>
      var epoch := (e + 1) % U32;
      SendCore(SendFsm(t.(epoch := epoch), BalanceEpochOk), NewEpoch(epoch)).(toEdge := t.toEdge + [BalanceMode(epoch)])
    case OtherCommand => t
  }

  /** The epoch after a reply that carries the last one; 32 bits wrap around. */
  function Succ(epoch: nat): nat { if epoch == U32 - 1 then 0 else epoch + 1 }

  /** A reply sets the epoch, tells the core and reports the state, once each and with the same number; no other
      command touches the epoch, the core or the reported state. */
  lemma ReplySetsEpoch(t: Task, c: Command, total: nat)
    requires c.Epoch? ==> c.epoch < U32
    ensures var t' := HandleCommand(t, c, total);
            if c.Epoch? then
              && t'.epoch == Succ(c.epoch)
              && t'.toCore == t.toCore + [NewEpoch(Succ(c.epoch))]
              && t'.toEdge == t.toEdge + [BalanceMode(Succ(c.epoch))]
            else
              t'.epoch == t.epoch && t'.toCore == t.toCore && t'.toEdge == t.toEdge
  {
  }

  // --- heartbeat generator -----------------------------------------------------------------------

  datatype Beat = NoBeat | PhaseBeat | NormalBeat | SafeBeat

  datatype Generator = Generator(beat: Beat, toTimer: seq<TimerCmd<Beat>>, heartbeatsSent: nat)

  const NEW_GENERATOR := Generator(NoBeat, [], 0)

  function Cadence(a: Action): Beat {
    match a
    case SendHeartbeatMessagePhase => PhaseBeat
    case SendHeartbeatMessageNormal => NormalBeat
    case SendHeartbeatMessageSafeMode => SafeBeat
    case _ => NoBeat
  }

  /** The timer commands an action makes the generator send. */
  function BeatCommands(a: Action): seq<TimerCmd<Beat>> {
    if Cadence(a) != NoBeat then [InitTimer(Cadence(a))]
    else if a.StopSendHeartbeatMessagePhase? || a.StopSendHeartbeatMessageSafeMode? then [TimerCmd.StopTimer]
    else []
  }

  function Obey(g: Generator, a: Action): Generator {
    g.(beat := if Cadence(a) != NoBeat then Cadence(a) else g.beat, toTimer := g.toTimer + BeatCommands(a))
  }

  function BeatOnce(g: Generator): Generator {
    var g1 := g.(heartbeatsSent := g.heartbeatsSent + 1);
    if g.beat == NoBeat then g1 else g1.(toTimer := g.toTimer + [InitTimer(g.beat)])
  }
}
