/** The objects behind FsmTask: the mutable session, the executing task, the machine's owner and the
    heartbeat generator, each proved to implement its specification function. */
module FsmTaskClasses {
  import opened FsmDomain
  import opened FsmTask
  import opened Watchdog
  import FsmAsync

  class UpdateSession {
    var emptyHash: map<HubId, bool>
    var handshakeHash: map<HubId, nat>
    var state: StateOfSession
    var totalAttempts: nat

    function View(): Session
      reads this
    {
      Session(emptyHash, handshakeHash, state, totalAttempts)
    }

    constructor ()
      ensures View() == NEW_SESSION
    {
      emptyHash, handshakeHash, state, totalAttempts := map[], map[], NoSession, 0;
    }

    method ResetTotalAttempts()
      modifies this
      ensures View() == old(View()).(attempts := 0)
    {
      totalAttempts := 0;
    }

    method ResetEmptyHash()
      modifies this
      ensures View() == old(View()).(empty := map[])
    {
      emptyHash := map[];
    }

    method ResetHandshakeHash()
      modifies this
      ensures View() == old(View()).(handshake := map[])
    {
      handshakeHash := map[];
    }

    method InsertEmpty(key: HubId, value: bool)
      modifies this
      ensures View() == old(View()).(empty := InsertOnce(old(emptyHash), key, value))
    {
      if key !in emptyHash {
        emptyHash := emptyHash[key := value];
      }
    }

    method InsertHandshake(key: HubId, value: nat)
      modifies this
      ensures View() == old(View()).(handshake := InsertOnce(old(handshakeHash), key, value))
    {
      if key !in handshakeHash {
        handshakeHash := handshakeHash[key := value];
      }
    }

    method SetState(st: StateOfSession)
      modifies this
      ensures View() == old(View()).(state := st)
    {
      state := st;
    }

    method IncrementAttempts()
      modifies this
      ensures View() == old(View()).(attempts := old(totalAttempts) + 1)
    {
      totalAttempts := totalAttempts + 1;
    }
  }

  class FsmRunner {
    var currentEpoch: nat
    const session: UpdateSession
    const maxAttempts: nat
    var toFsm: seq<Event>
    var toTimer: seq<TimerCmd<Mode>>
    var toHeartbeat: seq<Action>
    var toCore: seq<CoreMessage>
    var toEdge: seq<StateGlobal>

    function View(): Task
      reads this, session
    {
      Task(currentEpoch, session.View(), toFsm, toTimer, toHeartbeat, toCore, toEdge)
    }

    constructor (maxAttempts: nat)
      ensures fresh(session) && this.maxAttempts == maxAttempts
      ensures View() == NEW_TASK
    {
      this.maxAttempts := maxAttempts;
      currentEpoch := 0;
      session := new UpdateSession();
      toFsm, toTimer, toHeartbeat, toCore, toEdge := [], [], [], [], [];
    }

    /** Exactly one verdict is sent, and it approves on exactly the stated terms. */
    method RunQuorumAlgorithm(totalHubs: nat)
      modifies this
      ensures View() == QuorumAlgorithm(old(View()), maxAttempts, totalHubs)
      ensures var votes, a := |session.handshakeHash|, session.totalAttempts;
              && |toFsm| == |old(toFsm)| + 1
              && (toFsm[|old(toFsm)|].ApproveQuorum? <==>
                    && a <= LastChance(maxAttempts)
                    && (if totalHubs == 0 then votes > 0
                        else 100 * votes >= (80 - 5 * (if a <= 1 then 0 else a - 1)) * totalHubs))
    {
      ApprovedIff(|session.handshakeHash|, session.totalAttempts, maxAttempts, totalHubs);
      if session.totalAttempts > maxAttempts {
        toFsm := toFsm + [NotApproveNotAttempts];
      } else {
        var penalty := (if session.totalAttempts == 0 then 0 else session.totalAttempts - 1) * 5;
        var threshold := PERCENTAGE - penalty;
        if Reaches(|session.handshakeHash|, totalHubs, threshold) && threshold > 10 {
          toFsm := toFsm + [ApproveQuorum];
        } else {
          toFsm := toFsm + [NotApproveQuorum];
        }
      }
    }

    method Execute(a: Action, totalHubs: nat)
      modifies this, session
      ensures View() == HandleAction(old(View()), a, maxAttempts, totalHubs)
    {
      hide QuorumAlgorithm, EnterPhase, EnterRepeat;
      match a {
        case OnEntryBalance(b) =>
          OnEntryBalanceMode(b);
        case OnEntryQuorum(q) =>
          OnEntryQuorumState(q, totalHubs);
        case CalculateQuorum =>
          RunQuorumAlgorithm(totalHubs);
        case OnEntryPhase(p) =>
          OnEntryPhaseState(p);
        case OnEntryNormal =>
          toHeartbeat := toHeartbeat + [SendHeartbeatMessageNormal];
          toEdge := toEdge + [Normal];
        case OnEntrySafeMode =>
          OnEntrySafe();
        case StopTimer =>
          toTimer := toTimer + [TimerCmd.StopTimer];
        case StopSendHeartbeatMessagePhase =>
          toHeartbeat := toHeartbeat + [StopSendHeartbeatMessagePhase];
        case StopSendHeartbeatMessageSafeMode =>
          toHeartbeat := toHeartbeat + [StopSendHeartbeatMessageSafeMode];
        case _ =>
      }
    }

    method OnEntryBalanceMode(b: SubStateBalanceMode)
      modifies this, session
      ensures forall total :: View() == HandleAction(old(View()), OnEntryBalance(b), maxAttempts, total)
    {
      match b {
        case InitBalanceMode =>
          toCore := toCore + [GetEpoch];
        case InHandshake =>
          session.SetState(StateOfSession.InHandshake);
          toCore := toCore + [HandshakeToHub(In, currentEpoch)];
          toTimer := toTimer + [InitTimer(HandshakeIn)];
        case OutHandshake =>
          session.SetState(StateOfSession.OutHandshake);
          toCore := toCore + [HandshakeToHub(Out, currentEpoch)];
          toTimer := toTimer + [InitTimer(HandshakeOut)];
        case _ =>
      }
    }

    method OnEntryQuorumState(q: SubStateQuorum, totalHubs: nat)
      modifies this, session
      ensures View() == HandleAction(old(View()), OnEntryQuorum(q), maxAttempts, totalHubs)
    {
      match q {
        case CheckQuorumIn | CheckQuorumOut =>
          session.SetState(StateOfSession.Quorum);
          RunQuorumAlgorithm(totalHubs);
        case RepeatHandshakeIn | RepeatHandshakeOut =>
          session.SetState(StateOfSession.RepeatHandshake);
          session.IncrementAttempts();
          session.ResetHandshakeHash();
          OnEntryRepeatHandshake(q);
      }
    }

    method OnEntrySafe()
      modifies this, session
      ensures forall total :: View() == HandleAction(old(View()), OnEntrySafeMode, maxAttempts, total)
    {
      session.ResetEmptyHash();
      session.SetState(StateOfSession.SafeMode);
      toTimer := toTimer + [InitTimer(Safe)];
      toHeartbeat := toHeartbeat + [SendHeartbeatMessageSafeMode];
      toEdge := toEdge + [StateGlobal.SafeMode];
    }

    method OnEntryRepeatHandshake(q: SubStateQuorum)
      requires q.RepeatHandshakeIn? || q.RepeatHandshakeOut?
      modifies this
      ensures View() ==
              old(View()).(toCore := old(toCore) + [HandshakeToHub(if q.RepeatHandshakeIn? then In else Out, currentEpoch)],
                           toTimer := old(toTimer) + [InitTimer(if q.RepeatHandshakeIn? then RepeatIn else RepeatOut)])
    {
      if q.RepeatHandshakeIn? {
        toCore := toCore + [HandshakeToHub(In, currentEpoch)];
        toTimer := toTimer + [InitTimer(RepeatIn)];
      } else {
        toCore := toCore + [HandshakeToHub(Out, currentEpoch)];
        toTimer := toTimer + [InitTimer(RepeatOut)];
      }
    }

    method OnEntryPhaseState(p: SubStatePhase)
      modifies this, session
      ensures View() == EnterPhase(old(View()), p)
    {
      session.ResetTotalAttempts();
      session.ResetHandshakeHash();
      session.ResetEmptyHash();
      match p {
        case Alert =>
          session.SetState(PhaseAlert);
          toTimer := toTimer + [InitTimer(AlertPhase)];
          toCore := toCore + [PhaseNotification(Alert, currentEpoch)];
          toHeartbeat := toHeartbeat + [SendHeartbeatMessagePhase];
        case Data =>
          session.SetState(PhaseData);
          toTimer := toTimer + [InitTimer(DataPhase)];
          toCore := toCore + [PhaseNotification(Data, currentEpoch)];
        case Monitor =>
          session.SetState(PhaseMonitor);
          toTimer := toTimer + [InitTimer(MonitorPhase)];
          toCore := toCore + [PhaseNotification(Monitor, currentEpoch)];
      }
    }

    /** The `for action in vec_action` loop. Executing a vector moves the session exactly as replaying it. */
    method ExecuteAll(acts: seq<Action>, totals: seq<nat>)
      requires |totals| == |acts|
      modifies this, session
      ensures View() == HandleActions(old(View()), acts, maxAttempts, totals)
      ensures session.state == FsmAsync.Replay(old(session.state), acts)
      ensures session.totalAttempts == FsmAsync.ReplayAttempts(old(session.totalAttempts), acts)
    {
      VectorReplays(View(), acts, maxAttempts, totals);
      for i := 0 to |acts|
        invariant View() == HandleActions(old(View()), acts[..i], maxAttempts, totals[..i])
      {
        Execute(acts[i], totals[i]);
        assert acts[..i + 1][..i] == acts[..i] && totals[..i + 1][..i] == totals[..i];
      }
      assert acts[..|acts|] == acts && totals[..|acts|] == totals;
    }

    /** At most one vote or report is added, only from a listening state, and a vote only for the current
        epoch from a hub not counted yet. */
    method OnHubMessage(msg: HubMessage, totalHubs: nat)
      modifies this, session
      ensures View() == HandleHub(old(View()), msg, totalHubs)
      ensures AtMostOneVote(old(View()), View(), msg)
    {
      hide HandleHub, AtMostOneVote;
      OneVoteAtMost(View(), msg, totalHubs);
      HubArms(View(), msg, totalHubs);
      match msg {
        case HandshakeFromHub(sender, epoch) => OnHandshake(sender, epoch);
        case EmptyQueue(sender, empty) => OnEmptyQueue(sender, empty, totalHubs);
        case EmptyQueueSafe(sender, empty) => OnEmptyQueueSafe(sender, empty, totalHubs);
        case OtherHubMessage =>
      }
    }

    method OnHandshake(sender: HubId, epoch: nat)
      modifies this, session
      ensures forall total :: View() == HandleHub(old(View()), HandshakeFromHub(sender, epoch), total)
    {
      match session.state {
        case InHandshake | OutHandshake | RepeatHandshake =>
          if epoch == currentEpoch {
            session.InsertHandshake(sender, epoch);
            toFsm := toFsm + [NewMessageHandshake];
          }
        case _ =>
      }
    }

    method OnEmptyQueue(sender: HubId, empty: bool, totalHubs: nat)
      modifies this, session
      ensures View() == HandleHub(old(View()), EmptyQueue(sender, empty), totalHubs)
    {
      match session.state {
        case PhaseAlert | PhaseData | PhaseMonitor =>
          if empty {
            session.InsertEmpty(sender, true);
            if Reaches(|session.emptyHash|, totalHubs, 80) {
              toFsm := toFsm + [QuorumPhase];
              toTimer := toTimer + [TimerCmd.StopTimer];
            }
          }
        case _ =>
      }
    }

    method OnEmptyQueueSafe(sender: HubId, empty: bool, totalHubs: nat)
      modifies this, session
      ensures View() == HandleHub(old(View()), EmptyQueueSafe(sender, empty), totalHubs)
    {
      match session.state {
        case SafeMode =>
          if empty {
            session.InsertEmpty(sender, true);
            if Reaches(|session.emptyHash|, totalHubs, 70) {
              toFsm := toFsm + [QuorumSafeMode];
              toTimer := toTimer + [TimerCmd.StopTimer];
            }
          }
        case _ =>
      }
    }

    /** A reply sets the epoch to the one after it, and tells it on; nothing else does. */
    method OnCommand(c: Command, totalHubs: nat)
      modifies this, session
      ensures View() == HandleCommand(old(View()), c, totalHubs)
      ensures c.Epoch? && c.epoch < U32 ==>
                && currentEpoch == Succ(c.epoch)
                && toCore == old(toCore) + [NewEpoch(currentEpoch)] && toEdge == old(toEdge) + [BalanceMode(currentEpoch)]
      ensures !c.Epoch? ==> currentEpoch == old(currentEpoch) && toCore == old(toCore) && toEdge == old(toEdge)
    {
      if c.Epoch? ==> c.epoch < U32 {
        ReplySetsEpoch(View(), c, totalHubs);
      }
      hide HandleHub, AtMostOneVote;
      match c {
        case FromHub(msg) =>
          OnHubMessage(msg, totalHubs);
        case ErrorEpoch =>
          toFsm := toFsm + [BalanceEpochNotOk];
        case Epoch(e) =>
          currentEpoch := (e + 1) % U32;
          toFsm := toFsm + [BalanceEpochOk];
          toCore := toCore + [NewEpoch(currentEpoch)];
          toEdge := toEdge + [BalanceMode(currentEpoch)];
        case OtherCommand =>
      }
    }
  }

  /** What a hub message can do to the votes and reports, for the caller. */
  ghost predicate AtMostOneVote(t: Task, t': Task, msg: HubMessage) {
    && |t'.session.handshake| + |t'.session.empty| <= |t.session.handshake| + |t.session.empty| + 1
    && (t'.session.handshake != t.session.handshake ==>
          && msg.HandshakeFromHub? && msg.epoch == t.epoch && msg.sender !in t.session.handshake
          && ListensForHandshakes(t.session.state) && t'.session.handshake == t.session.handshake[msg.sender := msg.epoch])
    && (t'.session.empty != t.session.empty ==>
          && ((msg.EmptyQueue? && InPhase(t.session.state)) || (msg.EmptyQueueSafe? && t.session.state == StateOfSession.SafeMode))
          && msg.empty && msg.sender !in t.session.empty && t'.session.empty == t.session.empty[msg.sender := true])
    && t'.session.state == t.session.state && t'.session.attempts == t.session.attempts && t'.epoch == t.epoch
    && t.toFsm <= t'.toFsm && |t'.toFsm| <= |t.toFsm| + 1
  }

  lemma OneVoteAtMost(t: Task, msg: HubMessage, total: nat)
    ensures AtMostOneVote(t, HandleHub(t, msg, total), msg)
  {
  }

  lemma HubArms(t: Task, msg: HubMessage, total: nat)
    ensures msg.OtherHubMessage? ==> HandleHub(t, msg, total) == t
  {
  }

  lemma {:induction false} VectorReplays(t: Task, acts: seq<Action>, maxAttempts: nat, totals: seq<nat>)
    requires |totals| == |acts|
    ensures var s := HandleActions(t, acts, maxAttempts, totals).session;
            && s.state == FsmAsync.Replay(t.session.state, acts)
            && s.attempts == FsmAsync.ReplayAttempts(t.session.attempts, acts)
  {
    if acts != [] {
      var n := |acts| - 1;
      var before := HandleActions(t, acts[..n], maxAttempts, totals[..n]);
      VectorReplays(t, acts[..n], maxAttempts, totals[..n]);
      FsmAsync.ExecutingIsReplaying(before, acts[n], maxAttempts, totals[n]);
      FsmAsync.ReplayAppend(t.session.state, t.session.attempts, acts[..n], [acts[n]]);
      assert acts[..n] + [acts[n]] == acts && [acts[n]][1..] == [];
      hide HandleAction;
    }
  }

  /** `run_fsm`: owner of the machine's state. */
  class FsmOwner {
    var state: FsmState
    var toActions: seq<seq<Action>>

    constructor ()
      ensures state == StateOf(AwaitingEpoch, 0)
      ensures toActions == [[OnEntryBalance(InitBalanceMode)]]
    {
      state := NewFsm();
      toActions := [];
      new;
      StepIsFlat(state, Event.Start);
      HandleTransition(Step(state, Event.Start));
    }

    method HandleTransition(t: Transition)
      modifies this
      ensures state == if t.Valid? then t.next else old(state)
      ensures toActions == old(toActions) + if t.Valid? then [t.actions] else []
    {
      match t {
        case Valid(next, actions) =>
          state := next;
          toActions := toActions + [actions];
        case Invalid =>
      }
    }

    method OnEvent(e: Event)
      modifies this
      ensures Step(old(state), e).Valid? ==>
                state == Step(old(state), e).next && toActions == old(toActions) + [Step(old(state), e).actions]
      ensures Step(old(state), e).Invalid? ==> state == old(state) && toActions == old(toActions)
      ensures WellFormed(old(state)) ==>
                && WellFormed(state)
                && ModeOf(state) == (match Target(ModeOf(old(state)), e) case Some(to) => to case None => ModeOf(old(state)))
    {
      if WellFormed(state) {
        StepIsFlat(state, e);
      }
      hide Step, Target, WellFormed, ModeOf, Emitted;
      HandleTransition(Step(state, e));
    }
  }

  /** `heartbeat_generator`: decides which cadence to beat at and drives its own watchdog. */
  class HeartbeatGenerator {
    var beat: Beat
    var toTimer: seq<TimerCmd<Beat>>
    var heartbeatsSent: nat

    function View(): Generator
      reads this
    {
      Generator(beat, toTimer, heartbeatsSent)
    }

    constructor ()
      ensures View() == NEW_GENERATOR
    {
      beat, toTimer, heartbeatsSent := NoBeat, [], 0;
    }

    method OnAction(a: Action)
      modifies this
      ensures View() == Obey(old(View()), a)
    {
      match a {
        case SendHeartbeatMessagePhase =>
          beat := PhaseBeat;
          toTimer := toTimer + [InitTimer(PhaseBeat)];
        case SendHeartbeatMessageNormal =>
          beat := NormalBeat;
          toTimer := toTimer + [InitTimer(NormalBeat)];
        case SendHeartbeatMessageSafeMode =>
          beat := SafeBeat;
          toTimer := toTimer + [InitTimer(SafeBeat)];
        case StopSendHeartbeatMessagePhase | StopSendHeartbeatMessageSafeMode =>
          toTimer := toTimer + [TimerCmd.StopTimer];
        case _ =>
      }
    }

    /** One heartbeat, and a new start at the present cadence if there is one. */
    method OnTimeout()
      modifies this
      ensures View() == BeatOnce(old(View()))
      ensures heartbeatsSent == old(heartbeatsSent) + 1 && beat == old(beat)
      ensures toTimer == old(toTimer) + if beat == NoBeat then [] else [InitTimer(beat)]
    {
      heartbeatsSent := heartbeatsSent + 1;
      if beat == NoBeat {
        return;
      }
      toTimer := toTimer + [InitTimer(beat)];
    }
  }
}
