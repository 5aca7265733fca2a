/** Votes and reports in every interleaving: what a verdict or a quorum event says at the moment it is sent. */
module FsmAsyncVotes {
  import opened Common
  import opened FsmDomain
  import opened FsmTask
  import opened FsmSystem
  import opened FsmAsync
  import opened FsmStale
  import opened FsmRtc

  /** The handshakes are opened from a session without votes. */
  predicate OpensClean(st: StateOfSession, a: Action) {
    a == OnEntryBalance(SubStateBalanceMode.InHandshake) || a == OnEntryBalance(SubStateBalanceMode.OutHandshake) ==>
      st == NoSession || InPhase(st)
  }

  predicate AllOpenClean(st: StateOfSession, acts: seq<Action>)
    decreases |acts|
  {
    acts == [] || (OpensClean(st, acts[0]) && AllOpenClean(StateAfter(st, acts[0]), acts[1..]))
  }

  /** What the session has counted, against what was received since the round or phase was entered. */
  ghost predicate Tally(session: Session, h: History) {
    && session.handshake.Keys <= Cast(h.ballots)
    && (ListensForHandshakes(session.state) ==> session.handshake.Keys == Cast(h.ballots))
    && (session.state == NoSession || InPhase(session.state) ==> session.handshake == map[])
    && (InPhase(session.state) ==> session.empty.Keys == Emptied(h.reports, false))
    && (session.state == StateOfSession.SafeMode ==> session.empty.Keys == Emptied(h.reports, true))
  }

  ghost predicate Tallied(s: Sys) {
    Lags(s) && AllOpenClean(s.task.session.state, Outstanding(s)) && Tally(s.task.session, s.h)
  }

  // --- the queue ---------------------------------------------------------------------------------------------

  lemma {:induction false} CleanAppend(st: StateOfSession, a: seq<Action>, b: seq<Action>)
    ensures AllOpenClean(st, a + b) <==> AllOpenClean(st, a) && AllOpenClean(Replay(st, a), b)
    decreases |a|
  {
    hide OpensClean, StateAfter;
    if a == [] {
      assert a + b == b;
    } else {
      assert (a + b)[0] == a[0] && (a + b)[1..] == a[1..] + b;
      CleanAppend(StateAfter(st, a[0]), a[1..], b);
    }
  }

  predicate Opens(a: Action) {
    a == OnEntryBalance(SubStateBalanceMode.InHandshake) || a == OnEntryBalance(SubStateBalanceMode.OutHandshake)
  }

  lemma {:induction false} NoneOpens(st: StateOfSession, acts: seq<Action>)
    requires forall a :: a in acts ==> !Opens(a)
    ensures AllOpenClean(st, acts)
    decreases |acts|
  {
    if acts != [] {
      assert acts == [acts[0]] + acts[1..];
      assert acts[0] in acts;
      NoneOpens(StateAfter(st, acts[0]), acts[1..]);
    }
  }

  lemma OpenersClean(e: Event)
    ensures AllOpenClean(NoSession, Emitted(AwaitingEpoch, e, HandshakeIn))
    ensures AllOpenClean(PhaseMonitor, Emitted(MonitorPhase, e, HandshakeOut))
  {
    assert Emitted(AwaitingEpoch, e, HandshakeIn)[1..] == [];
    var before, open := [StopSendHeartbeatMessagePhase, Action.StopTimer], [OnEntryBalance(SubStateBalanceMode.OutHandshake)];
    assert Emitted(MonitorPhase, e, HandshakeOut) == before + open;
    assert open[1..] == [];
    assert AllOpenClean(PhaseMonitor, open);
    NoneOpens(PhaseMonitor, before);
    ReplayShort(PhaseMonitor, 0, before);
    CleanAppend(PhaseMonitor, before, open);
  }

  lemma OthersOpenNothing(m: Mode, e: Event, to: Mode)
    requires ArrowShape(m, to) && (m == to || (to != HandshakeIn && to != HandshakeOut))
    ensures forall a :: a in Emitted(m, e, to) ==> !Opens(a)
  {
    if to in {AwaitingEpoch, HandshakeIn, CheckIn, RepeatIn} {
    } else if to in {HandshakeOut, CheckOut, RepeatOut} {
    } else {
    }
  }

  lemma OpenersCome(m: Mode, e: Event, to: Mode)
    requires Target(m, e) == Some(to) && m != to
    ensures to == HandshakeIn ==> m == AwaitingEpoch
    ensures to == HandshakeOut ==> m == MonitorPhase
  {
  }

  lemma EmittedClean(m: Mode, e: Event, to: Mode)
    requires Target(m, e) == Some(to)
    ensures AllOpenClean(SessionOf(m), Emitted(m, e, to))
  {
    hide Emitted, Target, AllOpenClean, ArrowShape, Opens;
    ArrowIsShaped(m, e, to);
    if m != to && (to == HandshakeIn || to == HandshakeOut) {
      OpenersCome(m, e, to);
      OpenersClean(e);
    } else {
      OthersOpenNothing(m, e, to);
      NoneOpens(SessionOf(m), Emitted(m, e, to));
    }
  }

  // --- the tally ---------------------------------------------------------------------------------------------

  lemma ActionTally(session: Session, a: Action, h: History, total: nat, sent: nat)
    requires Tally(session, h) && OpensClean(session.state, a)
    ensures Tally(SessionAfter(session, a), RecordAction(h, a, total, sent))
  {
    assert Cast([]) == {} && Emptied([], false) == {} && Emptied([], true) == {};
    hide Cast, Emptied;
  }

  lemma HandshakeTally(t: Task, sender: HubId, epoch: nat, h: History, total: nat, sent: nat)
    requires Tally(t.session, h)
    ensures var c := FromHub(HandshakeFromHub(sender, epoch));
            Tally(HandleCommand(t, c, total).session, RecordCommand(h, c, t.epoch, total, sent))
  {
    CastGrows(h.ballots, Ballot(sender, epoch, t.epoch));
    hide Cast, Emptied;
    assert InsertOnce(t.session.handshake, sender, epoch).Keys == t.session.handshake.Keys + {sender};
  }

  lemma ReportTally(t: Task, msg: HubMessage, h: History, total: nat, sent: nat)
    requires Tally(t.session, h) && (msg.EmptyQueue? || msg.EmptyQueueSafe?)
    ensures Tally(HandleCommand(t, FromHub(msg), total).session, RecordCommand(h, FromHub(msg), t.epoch, total, sent))
  {
    hide HandleCommand;
    var r := Report(msg.sender, msg.empty, msg.EmptyQueueSafe?);
    ReportSession(t, msg, total);
    EmptiedGrows(h.reports, r, false);
    EmptiedGrows(h.reports, r, true);
    hide Emptied, Cast;
    assert InsertOnce(t.session.empty, msg.sender, true).Keys == t.session.empty.Keys + {msg.sender};
  }

  lemma CommandTally(t: Task, c: Command, h: History, total: nat, sent: nat)
    requires Tally(t.session, h)
    ensures Tally(HandleCommand(t, c, total).session, RecordCommand(h, c, t.epoch, total, sent))
  {
    match c {
      case FromHub(HandshakeFromHub(sender, epoch)) => HandshakeTally(t, sender, epoch, h, total, sent);
      case FromHub(EmptyQueue(_, _)) => ReportTally(t, c.msg, h, total, sent);
      case FromHub(EmptyQueueSafe(_, _)) => ReportTally(t, c.msg, h, total, sent);
      case _ => hide Cast, Emptied;
    }
  }

  /** The tally looks only at ballots and reports. */
  lemma TallyFramed(session: Session, h: History, h': History)
    requires Tally(session, h) && h'.ballots == h.ballots && h'.reports == h.reports
    ensures Tally(session, h')
  {
    hide Cast, Emptied;
  }

  // --- every step --------------------------------------------------------------------------------------------

  lemma RunFsmHistory(s: Sys, maxAttempts: nat)
    requires s.task.toFsm != []
    ensures var s' := Apply(s, RunFsm, maxAttempts);
            s'.h.ballots == s.h.ballots && s'.h.reports == s.h.reports && s'.task.session == s.task.session
  {
    hide Step;
  }

  lemma RunFsmTallied(s: Sys, maxAttempts: nat)
    requires Tallied(s) && s.task.toFsm != []
    ensures Tallied(Apply(s, RunFsm, maxAttempts))
  {
    hide Lags, AllOpenClean, Tally, Step, Apply, Outstanding, Emitted, Target, Replay;
    assert Enabled(s, RunFsm) by { RunFsmEnabled(s); }
    LagKept(s, RunFsm, maxAttempts);
    var e, s', st := s.task.toFsm[0], Apply(s, RunFsm, maxAttempts), s.task.session.state;
    RunFsmHistory(s, maxAttempts);
    TallyFramed(s.task.session, s.h, s'.h);
    LagsIsWellFormed(s);
    if Step(s.fsm, e).Valid? {
      Accepted(s, maxAttempts);
      var m, to := ModeOf(s.fsm), ModeOf(s'.fsm);
      NotFromNormal(m, e);
      EmittedClean(m, e, to);
      CleanAppend(st, Outstanding(s), Emitted(m, e, to));
    } else {
      Rejected(s, maxAttempts);
    }
  }

  lemma RunFsmEnabled(s: Sys)
    requires s.task.toFsm != []
    ensures Enabled(s, RunFsm)
  {
  }

  lemma NotFromNormal(m: Mode, e: Event)
    requires Target(m, e).Some?
    ensures m != Steady
  {
  }

  lemma DoActionTallied(s: Sys, total: nat, maxAttempts: nat)
    requires Tallied(s) && s.pending != []
    ensures Tallied(Apply(s, DoAction(total), maxAttempts))
  {
    hide Lags, Tally, HandleAction, Outstanding, OpensClean, StateAfter, RecordAction;
    LagKept(s, DoAction(total), maxAttempts);
    var a, s' := s.pending[0], Apply(s, DoAction(total), maxAttempts);
    OutstandingAfter(s, DoAction(total), maxAttempts);
    assert Outstanding(s)[0] == a && Outstanding(s)[1..] == Outstanding(s');
    SessionAfterIs(s.task, a, maxAttempts, total);
    ActionTally(s.task.session, a, s.h, total, Max(|s'.task.toFsm|, |s.task.toFsm|) - |s.task.toFsm|);
  }

  lemma ReceiveTallied(s: Sys, c: Command, total: nat, maxAttempts: nat)
    requires Tallied(s) && s.pending == []
    ensures Tallied(Apply(s, Label.Receive(c, total), maxAttempts))
  {
    hide Lags, Tally, HandleCommand, AllOpenClean, RecordCommand;
    LagKept(s, Label.Receive(c, total), maxAttempts);
    var s' := Apply(s, Label.Receive(c, total), maxAttempts);
    assert Outstanding(s') == Outstanding(s);
    CommandsKeepSession(s.task, c, total);
    CommandTally(s.task, c, s.h, total, Max(|s'.task.toFsm|, |s.task.toFsm|) - |s.task.toFsm|);
  }

  lemma OtherTallied(s: Sys, l: Label, maxAttempts: nat)
    requires Tallied(s) && Enabled(s, l) && !l.RunFsm? && !l.DoAction? && !l.Receive?
    ensures Tallied(Apply(s, l, maxAttempts))
  {
    hide Lags, Tally, AllOpenClean;
    LagKept(s, l, maxAttempts);
    OutstandingAfter(s, l, maxAttempts);
    hide Outstanding;
    TallyFramed(s.task.session, s.h, Apply(s, l, maxAttempts).h);
  }

  /** Every step of every task keeps the tally. */
  lemma TallyKept(s: Sys, l: Label, maxAttempts: nat)
    requires Tallied(s) && Enabled(s, l)
    ensures Tallied(Apply(s, l, maxAttempts))
  {
    hide Tallied, Apply;
    match l {
      case RunFsm => RunFsmTallied(s, maxAttempts);
      case DoAction(total) => DoActionTallied(s, total, maxAttempts);
      case Receive(c, total) => ReceiveTallied(s, c, total, maxAttempts);
      case _ => OtherTallied(s, l, maxAttempts);
    }
  }

  lemma {:induction false} TalliedAlong(s: Sys, ls: seq<Label>, maxAttempts: nat)
    requires Tallied(s) && Schedule(s, ls, maxAttempts)
    ensures Tallied(Execute(s, ls, maxAttempts))
    decreases |ls|
  {
    hide Tallied, Apply, Enabled;
    if ls != [] {
      TallyKept(s, ls[0], maxAttempts);
      TalliedAlong(Apply(s, ls[0], maxAttempts), ls[1..], maxAttempts);
    }
  }

  lemma InitTallied()
    ensures Tallied(Init())
  {
    InitAsync();
    assert Outstanding(Init()) == [OnEntryBalance(InitBalanceMode)] by {
      assert Init().actions[1..] == [];
      assert Flatten(Init().actions) == Init().actions[0] + Flatten<Action>([]);
    }
    NoneOpens(NoSession, [OnEntryBalance(InitBalanceMode)]);
    assert Cast([]) == {} && Emptied([], false) == {} && Emptied([], true) == {};
    hide Lags, Accounts, Outstanding, AllOpenClean, Cast, Emptied;
  }

  // --- what is sent --------------------------------------------------------------------------------------------

  /** As many votes as an approval takes. */
  predicate Enough(votes: nat, attempts: nat, total: nat) {
    if total == 0 then votes > 0 else 100 * votes >= (80 - 5 * (if attempts <= 1 then 0 else attempts - 1)) * total
  }

  lemma MoreIsEnough(votes: nat, more: nat, attempts: nat, total: nat)
    requires Enough(votes, attempts, total) && votes <= more
    ensures Enough(more, attempts, total)
  {
  }

  lemma SubsetIsSmaller(a: set<HubId>, b: set<HubId>)
    requires a <= b
    ensures |a| <= |b|
    decreases b
  {
    if a != b {
      assert b == a + (b - a);
    }
  }

  lemma CountersAre(h: map<HubId, nat>)
    ensures |h| == |h.Keys|
  {
  }

  lemma TallyCounts(session: Session, h: History)
    requires Tally(session, h)
    ensures |session.handshake| <= |Cast(h.ballots)|
    ensures ListensForHandshakes(session.state) ==> |session.handshake| == |Cast(h.ballots)|
  {
    CountersAre(session.handshake);
    hide Cast, Emptied;
    SubsetIsSmaller(session.handshake.Keys, Cast(h.ballots));
  }

  /** What a count sends, from what the session has counted. */
  lemma CountSends(s: Sys, total: nat, maxAttempts: nat)
    requires Tallied(s) && s.pending != [] && CountsVotes(s.pending[0])
    ensures var s', votes, a := Apply(s, DoAction(total), maxAttempts), |Cast(s.h.ballots)|, s.task.session.attempts;
            && |s'.task.toFsm| == |s.task.toFsm| + 1
            && var e := s'.task.toFsm[|s.task.toFsm|];
               && (e.ApproveQuorum? ==> a <= LastChance(maxAttempts) && Enough(votes, a, total))
               && (ListensForHandshakes(s.task.session.state) ==>
                     (e.ApproveQuorum? <==> a <= LastChance(maxAttempts) && Enough(votes, a, total)))
  {
    hide Tally, HandleAction, Verdict, Cast, ListensForHandshakes, TimerCommandsOf, BeatActionsOf, Lags, AllOpenClean;
    var session := s.task.session;
    ActionSends(s.task, s.pending[0], maxAttempts, total);
    ApprovedIff(|session.handshake|, session.attempts, maxAttempts, total);
    TallyCounts(session, s.h);
    if Enough(|session.handshake|, session.attempts, total) {
      MoreIsEnough(|session.handshake|, |Cast(s.h.ballots)|, session.attempts, total);
    }
  }

  /** In every interleaving an approval is earned when it is sent: the distinct hubs whose handshakes carried
      the current epoch, received since the task opened the round, reach the threshold of the attempts it has
      counted, and these are within the maximum and 14. While the task listens to handshakes the condition is
      also sufficient; a count executed later may have missed votes. */
  lemma ApprovalsAreEarned(ls: seq<Label>, total: nat, maxAttempts: nat)
    requires Schedule(Init(), ls, maxAttempts)
    requires var s := Execute(Init(), ls, maxAttempts); s.pending != [] && CountsVotes(s.pending[0])
    ensures var s := Execute(Init(), ls, maxAttempts);
            var s', votes, a := Apply(s, DoAction(total), maxAttempts), |Cast(s.h.ballots)|, s.task.session.attempts;
            && |s'.task.toFsm| == |s.task.toFsm| + 1
            && var e := s'.task.toFsm[|s.task.toFsm|];
               && (e.ApproveQuorum? ==> a <= LastChance(maxAttempts) && Enough(votes, a, total))
               && (ListensForHandshakes(s.task.session.state) ==>
                     (e.ApproveQuorum? <==> a <= LastChance(maxAttempts) && Enough(votes, a, total)))
  {
    hide *;
    InitTallied();
    TalliedAlong(Init(), ls, maxAttempts);
    CountSends(Execute(Init(), ls, maxAttempts), total, maxAttempts);
  }

  lemma ReportersAre(session: Session, h: History)
    requires Tally(session, h)
    ensures InPhase(session.state) ==> |session.empty| == |Emptied(h.reports, false)|
    ensures session.state == StateOfSession.SafeMode ==> |session.empty| == |Emptied(h.reports, true)|
  {
    assert |session.empty| == |session.empty.Keys|;
    hide Cast, Emptied;
  }

  /** The quorum events a command sends, from the session after it. */
  lemma QuorumOf(t: Task, c: Command, total: nat)
    ensures var es, session := EventsOfCommand(t, c, total), HandleCommand(t, c, total).session;
            && (QuorumPhase in es <==>
                  && c.FromHub? && c.msg.EmptyQueue? && c.msg.empty && InPhase(t.session.state)
                  && Reaches(|session.empty|, total, 80))
            && (QuorumSafeMode in es <==>
                  && c.FromHub? && c.msg.EmptyQueueSafe? && c.msg.empty && t.session.state == StateOfSession.SafeMode
                  && Reaches(|session.empty|, total, 70))
  {
  }

  lemma ReportSends(s: Sys, c: Command, total: nat, maxAttempts: nat)
    requires Tallied(s) && s.pending == []
    ensures var s', es := Apply(s, Label.Receive(c, total), maxAttempts), EventsOfCommand(s.task, c, total);
            && s'.task.toFsm == s.task.toFsm + es
            && (QuorumPhase in es <==>
                  && c.FromHub? && c.msg.EmptyQueue? && c.msg.empty && InPhase(s.task.session.state)
                  && Reaches(|Emptied(s'.h.reports, false)|, total, 80))
            && (QuorumSafeMode in es <==>
                  && c.FromHub? && c.msg.EmptyQueueSafe? && c.msg.empty && s.task.session.state == StateOfSession.SafeMode
                  && Reaches(|Emptied(s'.h.reports, true)|, total, 70))
  {
    hide Tally, HandleCommand, EventsOfCommand, Emptied, Reaches, Lags, AllOpenClean, RecordCommand, InPhase, Outstanding;
    var s' := Apply(s, Label.Receive(c, total), maxAttempts);
    CommandSends(s.task, c, total);
    CommandsKeepSession(s.task, c, total);
    QuorumOf(s.task, c, total);
    ReceiveTallied(s, c, total, maxAttempts);
    ReportersAre(s'.task.session, s'.h);
  }

  /** And so is a quorum event: it is sent exactly at the report of an empty queue with which the distinct hubs
      that reported one, since the task entered its phase, reach 80 percent of the hub count (in safe mode 70). */
  lemma QuorumsAreEarned(ls: seq<Label>, c: Command, total: nat, maxAttempts: nat)
    requires Schedule(Init(), ls, maxAttempts) && Execute(Init(), ls, maxAttempts).pending == []
    ensures var s := Execute(Init(), ls, maxAttempts);
            var s', es := Apply(s, Label.Receive(c, total), maxAttempts), EventsOfCommand(s.task, c, total);
            && s'.task.toFsm == s.task.toFsm + es
            && (QuorumPhase in es <==>
                  && c.FromHub? && c.msg.EmptyQueue? && c.msg.empty && InPhase(s.task.session.state)
                  && Reaches(|Emptied(s'.h.reports, false)|, total, 80))
            && (QuorumSafeMode in es <==>
                  && c.FromHub? && c.msg.EmptyQueueSafe? && c.msg.empty && s.task.session.state == StateOfSession.SafeMode
                  && Reaches(|Emptied(s'.h.reports, true)|, total, 70))
  {
    hide *;
    InitTallied();
    TalliedAlong(Init(), ls, maxAttempts);
    ReportSends(Execute(Init(), ls, maxAttempts), c, total, maxAttempts);
  }
}
