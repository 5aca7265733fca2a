/** The hierarchical state machine of src/fsm/domain.rs: states, events, actions and `step`. */
module FsmDomain {
  import opened Common

  datatype StateGlobal = Start | BalanceMode(epoch: nat) | Normal | SafeMode

  datatype SubStateBalanceMode = InitBalanceMode | InHandshake | Quorum | Phase | OutHandshake

  datatype SubStateQuorum = CheckQuorumIn | CheckQuorumOut | RepeatHandshakeIn | RepeatHandshakeOut

  datatype SubStatePhase = Alert | Data | Monitor

  /** The composite state: an inactive level of the hierarchy holds `None`. */
  datatype FsmState = FsmState(
    global: StateGlobal,
    balance: Option<SubStateBalanceMode>,
    quorum: Option<SubStateQuorum>,
    phase: Option<SubStatePhase>)

  datatype Action =
    | SendHeartbeatMessagePhase
    | SendHeartbeatMessageSafeMode
    | SendHeartbeatMessageNormal
    | StopSendHeartbeatMessagePhase
    | StopSendHeartbeatMessageSafeMode
    | OnEntryBalance(balance: SubStateBalanceMode)
    | OnEntryQuorum(quorum: SubStateQuorum)
    | OnEntryPhase(phase: SubStatePhase)
    | OnEntryNormal
    | OnEntrySafeMode
    | StopTimer
    | CalculateQuorum

  /** The events `run_fsm` can receive. The source's enum also carries the two timer commands; those
      only ever travel to a watchdog and are `Watchdog.TimerCmd` here. */
  datatype Event =
    | Start
    | Timeout
    | BalanceEpochOk
    | BalanceEpochNotOk
    | ApproveQuorum
    | QuorumPhase
    | QuorumSafeMode
    | NotApproveQuorum
    | NotApproveNotAttempts
    | NewMessageHandshake

  datatype Transition = Valid(next: FsmState, actions: seq<Action>) | Invalid

  function NewFsm(): FsmState { FsmState(StateGlobal.Start, None, None, None) }

  function StepStart(s: FsmState, e: Event): Transition {
    if s.global.Start? && e.Start? then
      Valid(s.(global := BalanceMode(0), balance := Some(InitBalanceMode)), [])
    else
      Invalid
  }

  function StepQuorum(s: FsmState, e: Event): Transition {
    match s.quorum
    case Some(CheckQuorumIn) =>
      (match e
       case NotApproveQuorum => Valid(s.(quorum := Some(RepeatHandshakeIn)), [])
       case ApproveQuorum => Valid(EnterAlert(s), [StopTimer])
       case NotApproveNotAttempts => Valid(EnterSafe(s), [])
       case _ => Invalid)
    case Some(CheckQuorumOut) =>
      (match e
       case NotApproveQuorum => Valid(s.(quorum := Some(RepeatHandshakeOut)), [])
       case ApproveQuorum => Valid(EnterNormal(s), [StopTimer])
       case NotApproveNotAttempts => Valid(EnterSafe(s), [])
       case _ => Invalid)
    case Some(RepeatHandshakeIn) =>
      (match e
       case Timeout => Valid(s.(quorum := Some(CheckQuorumIn)), [])
       case NewMessageHandshake => Valid(s, [CalculateQuorum])
       case ApproveQuorum => Valid(EnterAlert(s), [StopTimer])
       case NotApproveQuorum => Valid(s, [])
       case _ => Invalid)
    case Some(RepeatHandshakeOut) =>
      (match e
       case Timeout => Valid(s.(quorum := Some(CheckQuorumOut)), [])
       case NewMessageHandshake => Valid(s, [CalculateQuorum])
       case ApproveQuorum => Valid(EnterNormal(s), [StopTimer])
       case NotApproveQuorum => Valid(s, [])
       case _ => Invalid)
    case None => Invalid
  }

  function EnterAlert(s: FsmState): FsmState {
    s.(balance := Some(Phase), phase := Some(Alert), quorum := None)
  }

  function EnterSafe(s: FsmState): FsmState {
    s.(global := SafeMode, balance := None, quorum := None)
  }

  function EnterNormal(s: FsmState): FsmState {
    s.(balance := None, quorum := None, global := Normal)
  }

  function StepPhase(s: FsmState, e: Event): Transition {
    if !(e.Timeout? || e.QuorumPhase?) then Invalid
    else
      match s.phase
      case Some(Alert) => Valid(s.(phase := Some(Data)), [StopTimer])
      case Some(Data) => Valid(s.(phase := Some(Monitor)), [StopTimer])
      case Some(Monitor) =>
        Valid(s.(balance := Some(OutHandshake), phase := None), [StopSendHeartbeatMessagePhase, StopTimer])
      case None => Invalid
  }

  function StepBalanceMode(s: FsmState, e: Event): Transition {
    match s.balance
    case Some(InitBalanceMode) =>
      (match e
       case BalanceEpochOk => Valid(s.(balance := Some(InHandshake)), [])
       case BalanceEpochNotOk => Valid(s.(balance := None, global := SafeMode), [])
       case _ => Invalid)
    case Some(InHandshake) =>
      (match e
       case Timeout => Valid(s.(balance := Some(Quorum), quorum := Some(CheckQuorumIn)), [])
       case NewMessageHandshake => Valid(s, [CalculateQuorum])
       case ApproveQuorum => Valid(EnterAlert(s), [StopTimer])
       case NotApproveQuorum => Valid(s, [])
       case _ => Invalid)
    case Some(Quorum) => StepQuorum(s, e)
    case Some(Phase) => StepPhase(s, e)
    case Some(OutHandshake) =>
      (match e
       case Timeout => Valid(s.(balance := Some(Quorum), quorum := Some(CheckQuorumOut)), [])
       case ApproveQuorum => Valid(EnterNormal(s), [StopTimer])
       case NotApproveQuorum => Valid(s, [])
       case NewMessageHandshake => Valid(s, [CalculateQuorum])
       case _ => Invalid)
    case None => Invalid
  }

  function StepSafeMode(s: FsmState, e: Event): Transition {
    if e.Timeout? || e.QuorumSafeMode? then
      Valid(s.(global := Normal), [StopSendHeartbeatMessageSafeMode])
    else
      Invalid
  }

  function StepInner(s: FsmState, e: Event): Transition {
    match s.global
    case Start => StepStart(s, e)
    case BalanceMode(_) => StepBalanceMode(s, e)
    case SafeMode => StepSafeMode(s, e)
    case Normal => Invalid
  }

  /** Entry actions, found by comparing each level of the old and the new state. */
  function ComputeOnEntry(old_: FsmState, new_: FsmState): seq<Action> {
    (if old_.balance != new_.balance && new_.balance.Some? then [OnEntryBalance(new_.balance.value)] else [])
    + (if old_.quorum != new_.quorum && new_.quorum.Some? then [OnEntryQuorum(new_.quorum.value)] else [])
    + (if old_.global != new_.global && new_.global.Normal? then [OnEntryNormal] else [])
    + (if old_.global != new_.global && new_.global.SafeMode? then [OnEntrySafeMode] else [])
    + (if old_.phase != new_.phase && new_.phase.Some? then [OnEntryPhase(new_.phase.value)] else [])
  }

  function Step(s: FsmState, e: Event): Transition {
    match StepInner(s, e)
    case Valid(next, actions) => Valid(next, actions + ComputeOnEntry(s, next))
    case Invalid => Invalid
  }

  // ---------------------------------------------------------------------------------------------
  // A flat reference machine, written as the protocol diagram: thirteen modes, one arrow table.

  datatype Mode =
    | Booting
    | AwaitingEpoch
    | HandshakeIn
    | CheckIn
    | RepeatIn
    | AlertPhase
    | DataPhase
    | MonitorPhase
    | HandshakeOut
    | CheckOut
    | RepeatOut
    | Safe
    | Steady

  /** The hierarchy is well formed: each level is present exactly when its parent calls for it. */
  predicate WellFormed(s: FsmState) {
    && (s.balance.Some? <==> s.global.BalanceMode?)
    && (s.quorum.Some? <==> s.balance == Some(Quorum))
    && (s.phase.Some? <==> s.balance == Some(Phase))
  }

  function ModeOf(s: FsmState): Mode
    requires WellFormed(s)
  {
    match s.global
    case Start => Booting
    case Normal => Steady
    case SafeMode => Safe
    case BalanceMode(_) =>
      match s.balance.value
      case InitBalanceMode => AwaitingEpoch
      case InHandshake => HandshakeIn
      case OutHandshake => HandshakeOut
      case Quorum =>
        (match s.quorum.value
         case CheckQuorumIn => CheckIn
         case CheckQuorumOut => CheckOut
         case RepeatHandshakeIn => RepeatIn
         case RepeatHandshakeOut => RepeatOut)
      case Phase =>
        (match s.phase.value
         case Alert => AlertPhase
         case Data => DataPhase
         case Monitor => MonitorPhase)
  }

  function BalanceState(m: Mode): Option<SubStateBalanceMode> {
    match m
    case Booting | Safe | Steady => None
    case AwaitingEpoch => Some(InitBalanceMode)
    case HandshakeIn => Some(InHandshake)
    case HandshakeOut => Some(OutHandshake)
    case CheckIn | RepeatIn | CheckOut | RepeatOut => Some(Quorum)
    case AlertPhase | DataPhase | MonitorPhase => Some(Phase)
  }

  function QuorumState(m: Mode): Option<SubStateQuorum> {
    match m
    case CheckIn => Some(CheckQuorumIn)
    case CheckOut => Some(CheckQuorumOut)
    case RepeatIn => Some(RepeatHandshakeIn)
    case RepeatOut => Some(RepeatHandshakeOut)
    case _ => None
  }

  function PhaseState(m: Mode): Option<SubStatePhase> {
    match m
    case AlertPhase => Some(Alert)
    case DataPhase => Some(Data)
    case MonitorPhase => Some(Monitor)
    case _ => None
  }

  function StateOf(m: Mode, epoch: nat): FsmState {
    FsmState(
      match m
      case Booting => StateGlobal.Start
      case Safe => SafeMode
      case Steady => Normal
      case _ => BalanceMode(epoch),
      BalanceState(m), QuorumState(m), PhaseState(m))
  }

  /** The arrow table; `None` means the event is rejected. */
  function Target(m: Mode, e: Event): Option<Mode> {
    match m
    case Booting => if e.Start? then Some(AwaitingEpoch) else None
    case AwaitingEpoch =>
      if e.BalanceEpochOk? then Some(HandshakeIn) else if e.BalanceEpochNotOk? then Some(Safe) else None
    case HandshakeIn | RepeatIn =>
      if e.Timeout? then Some(CheckIn)
      else if e.ApproveQuorum? then Some(AlertPhase)
      else if e.NewMessageHandshake? || e.NotApproveQuorum? then Some(m) else None
    case CheckIn => Judged(e, AlertPhase, RepeatIn)
    case AlertPhase => if e.Timeout? || e.QuorumPhase? then Some(DataPhase) else None
    case DataPhase => if e.Timeout? || e.QuorumPhase? then Some(MonitorPhase) else None
    case MonitorPhase => if e.Timeout? || e.QuorumPhase? then Some(HandshakeOut) else None
    case HandshakeOut | RepeatOut =>
      if e.Timeout? then Some(CheckOut)
      else if e.ApproveQuorum? then Some(Steady)
      else if e.NewMessageHandshake? || e.NotApproveQuorum? then Some(m) else None
    case CheckOut => Judged(e, Steady, RepeatOut)
    case Safe => if e.Timeout? || e.QuorumSafeMode? then Some(Steady) else None
    case Steady => None
  }

  function Judged(e: Event, approved: Mode, again: Mode): Option<Mode> {
    if e.ApproveQuorum? then Some(approved)
    else if e.NotApproveQuorum? then Some(again)
    else if e.NotApproveNotAttempts? then Some(Safe) else None
  }

  /** What the machine asks its runtime to do on the arrow from `m` to `to`. */
  function Emitted(m: Mode, e: Event, to: Mode): seq<Action> {
    match to
    case Booting => []
    case AwaitingEpoch => [OnEntryBalance(InitBalanceMode)]
    case HandshakeIn => if m == to then Recount(e) else [OnEntryBalance(InHandshake)]
    case HandshakeOut =>
      if m == to then Recount(e)
      else [StopSendHeartbeatMessagePhase, StopTimer, OnEntryBalance(OutHandshake)]
    case CheckIn => OpenQuorum(m) + [OnEntryQuorum(CheckQuorumIn)]
    case CheckOut => OpenQuorum(m) + [OnEntryQuorum(CheckQuorumOut)]
    case RepeatIn => if m == to then Recount(e) else [OnEntryQuorum(RepeatHandshakeIn)]
    case RepeatOut => if m == to then Recount(e) else [OnEntryQuorum(RepeatHandshakeOut)]
    case AlertPhase => [StopTimer, OnEntryBalance(Phase), OnEntryPhase(Alert)]
    case DataPhase => [StopTimer, OnEntryPhase(Data)]
    case MonitorPhase => [StopTimer, OnEntryPhase(Monitor)]
    case Safe => [OnEntrySafeMode]
    case Steady => if m == Safe then [StopSendHeartbeatMessageSafeMode, OnEntryNormal] else [StopTimer, OnEntryNormal]
  }

  function Recount(e: Event): seq<Action> {
    if e.NewMessageHandshake? then [CalculateQuorum] else []
  }

  function OpenQuorum(m: Mode): seq<Action> {
    if m == HandshakeIn || m == HandshakeOut then [OnEntryBalance(Quorum)] else []
  }

  /** Modes and well-formed states correspond one to one (up to the epoch label). */
  lemma ModeRoundTrip(s: FsmState, m: Mode, epoch: nat)
    ensures WellFormed(StateOf(m, epoch)) && ModeOf(StateOf(m, epoch)) == m
    ensures WellFormed(s) && (s.global.BalanceMode? ==> s.global.epoch == epoch) ==> StateOf(ModeOf(s), epoch) == s
  {
  }

  /** `step` on `s` accepts the same events as the flat machine, with the same target and actions, and
      keeps the hierarchy well formed. */
  ghost predicate AgreesWithFlat(s: FsmState, e: Event)
    requires WellFormed(s)
  {
    match Target(ModeOf(s), e)
    case None => Step(s, e) == Invalid
    case Some(to) =>
      && Step(s, e).Valid?
      && WellFormed(Step(s, e).next)
      && ModeOf(Step(s, e).next) == to
      && Step(s, e).actions == Emitted(ModeOf(s), e, to)
  }

  lemma InHandshakeIsFlat(s: FsmState, e: Event)
    requires WellFormed(s) && s.balance == Some(InHandshake)
    ensures AgreesWithFlat(s, e)
  {
  }

  lemma OutHandshakeIsFlat(s: FsmState, e: Event)
    requires WellFormed(s) && s.balance == Some(OutHandshake)
    ensures AgreesWithFlat(s, e)
  {
  }

  lemma CheckInIsFlat(s: FsmState, e: Event)
    requires WellFormed(s) && s.quorum == Some(CheckQuorumIn)
    ensures AgreesWithFlat(s, e)
  {
  }

  lemma CheckOutIsFlat(s: FsmState, e: Event)
    requires WellFormed(s) && s.quorum == Some(CheckQuorumOut)
    ensures AgreesWithFlat(s, e)
  {
  }

  lemma RepeatInIsFlat(s: FsmState, e: Event)
    requires WellFormed(s) && s.quorum == Some(RepeatHandshakeIn)
    ensures AgreesWithFlat(s, e)
  {
  }

  lemma RepeatOutIsFlat(s: FsmState, e: Event)
    requires WellFormed(s) && s.quorum == Some(RepeatHandshakeOut)
    ensures AgreesWithFlat(s, e)
  {
  }

  lemma PhaseIsFlat(s: FsmState, e: Event)
    requires WellFormed(s) && s.balance == Some(Phase)
    ensures AgreesWithFlat(s, e)
  {
  }

  lemma AwaitingIsFlat(s: FsmState, e: Event)
    requires WellFormed(s) && s.balance == Some(InitBalanceMode)
    ensures AgreesWithFlat(s, e)
  {
  }

  lemma StartIsFlat(s: FsmState, e: Event)
    requires WellFormed(s) && s.global.Start?
    ensures AgreesWithFlat(s, e)
  {
  }

  lemma SafeIsFlat(s: FsmState, e: Event)
    requires WellFormed(s) && s.global.SafeMode?
    ensures AgreesWithFlat(s, e)
  {
  }

  lemma NormalIsFlat(s: FsmState, e: Event)
    requires WellFormed(s) && s.global.Normal?
    ensures AgreesWithFlat(s, e)
  {
  }

  /** The hierarchical machine is the flat machine, on every well-formed state and every event. */
  lemma StepIsFlat(s: FsmState, e: Event)
    requires WellFormed(s)
    ensures AgreesWithFlat(s, e)
  {
    hide AgreesWithFlat;
    match s.global {
      case Start => StartIsFlat(s, e);
      case SafeMode => SafeIsFlat(s, e);
      case Normal => NormalIsFlat(s, e);
      case BalanceMode(_) =>
        match s.balance {
          case Some(InitBalanceMode) => AwaitingIsFlat(s, e);
          case Some(InHandshake) => InHandshakeIsFlat(s, e);
          case Some(OutHandshake) => OutHandshakeIsFlat(s, e);
          case Some(Phase) => PhaseIsFlat(s, e);
          case Some(Quorum) =>
            match s.quorum {
              case Some(CheckQuorumIn) => CheckInIsFlat(s, e);
              case Some(CheckQuorumOut) => CheckOutIsFlat(s, e);
              case Some(RepeatHandshakeIn) => RepeatInIsFlat(s, e);
              case Some(RepeatHandshakeOut) => RepeatOutIsFlat(s, e);
            }
        }
    }
  }
}
