/** The bounds of `FsmAsyncBound` are exact: for every configuration there is an interleaving with that many
    watchdog expiries and repeat rounds. Starts of the watchdog are left in its channel until their expiry is
    wanted, so no timer is ever cancelled; vote counts asked for in time are executed late. */
module FsmAsyncWorst {
  import opened Common
  import opened FsmDomain
  import opened FsmTask
  import opened Watchdog
  import opened FsmSystem
  import opened FsmAsync
  import opened FsmStale
  import opened FsmBooks
  import opened FsmRtcTheorems

  /** What the construction looks at; the watchdog is idle throughout, `backlog` starts wait in its channel. */
  datatype View = View(
    mode: Mode, sent: seq<Event>, backlog: nat, queued: seq<Action>, st: StateOfSession, attempts: nat, voted: bool)

  ghost predicate Stands(s: Sys, v: View) {
    && WellFormed(s.fsm) && ModeOf(s.fsm) == v.mode && s.task.toFsm == v.sent
    && s.timer.Idle? && CountInits(s.task.toTimer) == v.backlog && Outstanding(s) == v.queued
    && s.task.session.state == v.st && s.task.session.attempts == v.attempts
    && s.task.session.handshake.Keys == (if v.voted then {"hub"} else {})
  }

  ghost predicate Leads(s: Sys, ls: seq<Label>, k: nat, v: View, maxAttempts: nat) {
    Schedule(s, ls, maxAttempts) && Expiries(ls) == k && Stands(Execute(s, ls, maxAttempts), v)
  }

  /** Some run from power-on has `k` expiries and stands at `v`. */
  ghost predicate Found(k: nat, v: View, maxAttempts: nat) { exists ls :: Leads(Init(), ls, k, v, maxAttempts) }

  lemma {:induction false} Joined(s: Sys, a: seq<Label>, b: seq<Label>, maxAttempts: nat)
    requires Schedule(s, a, maxAttempts) && Schedule(Execute(s, a, maxAttempts), b, maxAttempts)
    ensures Schedule(s, a + b, maxAttempts)
    ensures Execute(s, a + b, maxAttempts) == Execute(Execute(s, a, maxAttempts), b, maxAttempts)
    ensures Expiries(a + b) == Expiries(a) + Expiries(b)
    decreases |a|
  {
    hide Apply, Enabled;
    if a == [] {
      assert a + b == b;
    } else {
      assert (a + b)[0] == a[0] && (a + b)[1..] == a[1..] + b;
      Joined(Apply(s, a[0], maxAttempts), a[1..], b, maxAttempts);
    }
  }

  /** A run found can be continued. */
  lemma FoundOn(a: seq<Label>, k: nat, v: View, b: seq<Label>, j: nat, v': View, maxAttempts: nat)
    requires Leads(Init(), a, k, v, maxAttempts) && Leads(Execute(Init(), a, maxAttempts), b, j, v', maxAttempts)
    ensures Found(k + j, v', maxAttempts)
  {
    hide Schedule, Execute, Stands, Init;
    Joined(Init(), a, b, maxAttempts);
    assert Leads(Init(), a + b, k + j, v', maxAttempts);
  }

  lemma StepThen(s: Sys, l: Label, ls: seq<Label>, k: nat, v: View, maxAttempts: nat)
    requires Enabled(s, l) && Leads(Apply(s, l, maxAttempts), ls, k, v, maxAttempts)
    ensures Leads(s, [l] + ls, k + (if l.TimerFires? then 1 else 0), v, maxAttempts)
  {
    hide Apply, Enabled, Stands;
    assert ([l] + ls)[1..] == ls;
  }

  lemma OneStep(s: Sys, l: Label, v: View, maxAttempts: nat)
    requires Enabled(s, l) && Stands(Apply(s, l, maxAttempts), v)
    ensures Leads(s, [l], if l.TimerFires? then 1 else 0, v, maxAttempts)
  {
    hide Apply, Enabled, Stands;
    assert Leads(Apply(s, l, maxAttempts), [], 0, v, maxAttempts);
    StepThen(s, l, [], 0, v, maxAttempts);
    assert [l] + [] == [l];
  }

  // --- the machine reads -----------------------------------------------------------------------------------

  function Reading(v: View, to: Mode): View
    requires v.sent != []
  {
    v.(mode := to, sent := v.sent[1..], queued := v.queued + Emitted(v.mode, v.sent[0], to))
  }

  lemma ReadStands(s: Sys, v: View, to: Mode, maxAttempts: nat)
    requires Stands(s, v) && v.sent != [] && Target(v.mode, v.sent[0]) == Some(to)
    ensures Enabled(s, RunFsm) && Stands(Apply(s, RunFsm, maxAttempts), Reading(v, to))
  {
    StepIsFlat(s.fsm, v.sent[0]);
    assert Enabled(s, RunFsm);
    hide Step, Emitted, Outstanding, Apply, Target;
    Accepted(s, maxAttempts);
  }

  lemma Read(k: nat, v: View, to: Mode, maxAttempts: nat)
    requires Found(k, v, maxAttempts) && v.sent != [] && Target(v.mode, v.sent[0]) == Some(to)
    ensures Found(k, Reading(v, to), maxAttempts)
  {
    hide Schedule, Execute, Stands, Init, Apply, Enabled, Reading, Target;
    var ls :| Leads(Init(), ls, k, v, maxAttempts);
    var s := Execute(Init(), ls, maxAttempts);
    ReadStands(s, v, to, maxAttempts);
    OneStep(s, RunFsm, Reading(v, to), maxAttempts);
    FoundOn(ls, k, v, [RunFsm], 0, Reading(v, to), maxAttempts);
  }

  lemma IgnoreStands(s: Sys, v: View, maxAttempts: nat)
    requires Stands(s, v) && v.sent != [] && Target(v.mode, v.sent[0]) == None
    ensures Enabled(s, RunFsm) && Stands(Apply(s, RunFsm, maxAttempts), v.(sent := v.sent[1..]))
  {
    StepIsFlat(s.fsm, v.sent[0]);
    assert Enabled(s, RunFsm);
    hide Step, Outstanding, Apply, Target;
    Rejected(s, maxAttempts);
  }

  lemma Ignore(k: nat, v: View, maxAttempts: nat)
    requires Found(k, v, maxAttempts) && v.sent != [] && Target(v.mode, v.sent[0]) == None
    ensures Found(k, v.(sent := v.sent[1..]), maxAttempts)
  {
    hide Schedule, Execute, Stands, Init, Apply, Enabled, Target;
    var ls :| Leads(Init(), ls, k, v, maxAttempts);
    var s, v' := Execute(Init(), ls, maxAttempts), v.(sent := v.sent[1..]);
    IgnoreStands(s, v, maxAttempts);
    OneStep(s, RunFsm, v', maxAttempts);
    FoundOn(ls, k, v, [RunFsm], 0, v', maxAttempts);
  }

  // --- the fsm task executes an action ----------------------------------------------------------------------

  predicate ForgetsVotes(a: Action) {
    a.OnEntryPhase? || a == OnEntryQuorum(RepeatHandshakeIn) || a == OnEntryQuorum(RepeatHandshakeOut)
  }

  function Doing(v: View, total: nat, maxAttempts: nat): View
    requires v.queued != []
  {
    var a := v.queued[0];
    View(v.mode,
         if CountsVotes(a) then v.sent + [Verdict(if v.voted then 1 else 0, v.attempts, maxAttempts, total)] else v.sent,
         v.backlog + (if Arms(a) then 1 else 0),
         v.queued[1..], StateAfter(v.st, a), AttemptsAfter(v.attempts, a), v.voted && !ForgetsVotes(a))
  }

  lemma ActionVoters(t: Task, a: Action, maxAttempts: nat, total: nat)
    ensures HandleAction(t, a, maxAttempts, total).session.handshake == if ForgetsVotes(a) then map[] else t.session.handshake
  {
  }

  lemma DoStands(s: Sys, v: View, total: nat, maxAttempts: nat)
    requires Stands(s, v) && s.pending != []
    ensures Enabled(s, DoAction(total)) && v.queued != []
    ensures Stands(Apply(s, DoAction(total), maxAttempts), Doing(v, total, maxAttempts))
  {
    hide HandleAction, Verdict, TimerCommandsOf, StateAfter, AttemptsAfter, CountsVotes, ForgetsVotes, Arms, BeatActionsOf;
    var a, s' := s.pending[0], Apply(s, DoAction(total), maxAttempts);
    OutstandingAfter(s, DoAction(total), maxAttempts);
    assert v.queued[0] == a && v.queued[1..] == Outstanding(s');
    hide Outstanding;
    ActionSends(s.task, a, maxAttempts, total);
    ExecutingIsReplaying(s.task, a, maxAttempts, total);
    ActionVoters(s.task, a, maxAttempts, total);
    CountsAppend([], [], s.task.toTimer, TimerCommandsOf(a));
    CommandCount(a);
    VotersAre(s.task.session.handshake, v.voted);
  }

  lemma VotersAre(h: map<HubId, nat>, voted: bool)
    requires h.Keys == if voted then {"hub"} else {}
    ensures |h| == if voted then 1 else 0
  {
    assert |h| == |h.Keys|;
  }

  /** The task takes up vectors until it has an action to execute. */
  lemma {:induction false} TakeUp(s: Sys, v: View, total: nat, maxAttempts: nat) returns (ls: seq<Label>)
    requires Stands(s, v) && v.queued != []
    ensures Leads(s, ls, 0, Doing(v, total, maxAttempts), maxAttempts)
    decreases |s.actions|
  {
    if s.pending != [] {
      DoStands(s, v, total, maxAttempts);
      hide *;
      OneStep(s, DoAction(total), Doing(v, total, maxAttempts), maxAttempts);
      ls := [DoAction(total)];
    } else {
      TakeStands(s, v, maxAttempts);
      var s1 := Apply(s, TakeVector, maxAttempts);
      hide Stands, Doing, Leads, Outstanding, Enabled;
      var rest := TakeUp(s1, v, total, maxAttempts);
      StepThen(s, TakeVector, rest, 0, Doing(v, total, maxAttempts), maxAttempts);
      ls := [TakeVector] + rest;
    }
  }

  lemma TakeStands(s: Sys, v: View, maxAttempts: nat)
    requires Stands(s, v) && v.queued != [] && s.pending == []
    ensures s.actions != [] && Enabled(s, TakeVector) && Stands(Apply(s, TakeVector, maxAttempts), v)
    ensures |Apply(s, TakeVector, maxAttempts).actions| < |s.actions|
  {
    assert s.actions != [];
    OutstandingAfter(s, TakeVector, maxAttempts);
    hide Outstanding;
  }

  lemma Do(k: nat, v: View, total: nat, maxAttempts: nat)
    requires Found(k, v, maxAttempts) && v.queued != []
    ensures Found(k, Doing(v, total, maxAttempts), maxAttempts)
  {
    hide Schedule, Execute, Stands, Init, Doing;
    var ls :| Leads(Init(), ls, k, v, maxAttempts);
    var s := Execute(Init(), ls, maxAttempts);
    var more := TakeUp(s, v, total, maxAttempts);
    FoundOn(ls, k, v, more, 0, Doing(v, total, maxAttempts), maxAttempts);
  }

  // --- the environment acts --------------------------------------------------------------------------------

  function Expiring(v: View): View
    requires v.backlog >= 1
  {
    v.(sent := v.sent + [Timeout], backlog := v.backlog - 1)
  }

  lemma TakesCommand(s: Sys, v: View, maxAttempts: nat)
    requires Stands(s, v) && s.task.toTimer != []
    ensures Enabled(s, WatchdogReceives)
    ensures var s1 := Apply(s, WatchdogReceives, maxAttempts);
            && s1.task.toTimer == s.task.toTimer[1..]
            && (s.task.toTimer[0].StopTimer? ==> Stands(s1, v))
            && (s.task.toTimer[0].InitTimer? ==> v.backlog >= 1 && s1.timer.Armed? && Stands(s1.(timer := Idle), v.(backlog := v.backlog - 1)))
  {
    var s1 := Apply(s, WatchdogReceives, maxAttempts);
    assert Outstanding(s1) == Outstanding(s) && Outstanding(s1.(timer := Idle)) == Outstanding(s);
    hide Outstanding;
  }

  lemma FireStands(s: Sys, v: View, maxAttempts: nat)
    requires s.timer.Armed? && Stands(s.(timer := Idle), v)
    ensures Enabled(s, TimerFires) && Stands(Apply(s, TimerFires, maxAttempts), v.(sent := v.sent + [Timeout]))
  {
    var s1 := Apply(s, TimerFires, maxAttempts);
    assert Outstanding(s1) == Outstanding(s) && Outstanding(s.(timer := Idle)) == Outstanding(s);
    hide Outstanding;
  }

  /** The watchdog takes commands until one starts it, and runs out. */
  lemma {:induction false} RunOut(s: Sys, v: View, maxAttempts: nat) returns (ls: seq<Label>)
    requires Stands(s, v) && v.backlog >= 1
    ensures Leads(s, ls, 1, Expiring(v), maxAttempts)
    decreases |s.task.toTimer|
  {
    assert s.task.toTimer != [];
    TakesCommand(s, v, maxAttempts);
    var s1 := Apply(s, WatchdogReceives, maxAttempts);
    hide Apply, Stands, Enabled, Leads;
    if s.task.toTimer[0].InitTimer? {
      FireStands(s1, v.(backlog := v.backlog - 1), maxAttempts);
      OneStep(s1, TimerFires, Expiring(v), maxAttempts);
      StepThen(s, WatchdogReceives, [TimerFires], 1, Expiring(v), maxAttempts);
      ls := [WatchdogReceives] + [TimerFires];
    } else {
      var rest := RunOut(s1, v, maxAttempts);
      StepThen(s, WatchdogReceives, rest, 1, Expiring(v), maxAttempts);
      ls := [WatchdogReceives] + rest;
    }
  }

  lemma Expire(k: nat, v: View, maxAttempts: nat)
    requires Found(k, v, maxAttempts) && v.backlog >= 1
    ensures Found(k + 1, Expiring(v), maxAttempts)
  {
    hide Schedule, Execute, Stands, Init, Expiring;
    var ls :| Leads(Init(), ls, k, v, maxAttempts);
    var more := RunOut(Execute(Init(), ls, maxAttempts), v, maxAttempts);
    FoundOn(ls, k, v, more, 1, Expiring(v), maxAttempts);
  }

  lemma RestIsPossible(s: Sys)
    requires Outstanding(s) == []
    ensures s.pending == []
  {
  }

  /** The epoch arrives. */
  lemma EpochStands(s: Sys, v: View, maxAttempts: nat)
    requires Stands(s, v) && v.queued == []
    ensures Enabled(s, Label.Receive(Epoch(0), 0))
    ensures Stands(Apply(s, Label.Receive(Epoch(0), 0), maxAttempts), v.(sent := v.sent + [BalanceEpochOk]))
  {
    RestIsPossible(s);
    assert Outstanding(Apply(s, Label.Receive(Epoch(0), 0), maxAttempts)) == Outstanding(s);
    hide Outstanding;
  }

  /** The hub's handshake with the current epoch is heard, its first or a repeated one. */
  lemma VoteStands(s: Sys, v: View, maxAttempts: nat)
    requires Stands(s, v) && v.queued == [] && ListensForHandshakes(v.st)
    ensures var l := Label.Receive(FromHub(HandshakeFromHub("hub", s.task.epoch)), 0);
            Enabled(s, l) && Stands(Apply(s, l, maxAttempts), v.(sent := v.sent + [NewMessageHandshake], voted := true))
  {
    var l := Label.Receive(FromHub(HandshakeFromHub("hub", s.task.epoch)), 0);
    RestIsPossible(s);
    assert Outstanding(Apply(s, l, maxAttempts)) == Outstanding(s);
    hide Outstanding;
    assert InsertOnce(s.task.session.handshake, "hub", s.task.epoch).Keys == {"hub"};
  }

  /** The hub reports an empty queue, one hub of one. */
  lemma ReportStands(s: Sys, v: View, maxAttempts: nat)
    requires Stands(s, v) && v.queued == [] && InPhase(v.st)
    ensures var l := Label.Receive(FromHub(EmptyQueue("hub", true)), 1);
            Enabled(s, l) && Stands(Apply(s, l, maxAttempts), v.(sent := v.sent + [QuorumPhase]))
  {
    var l := Label.Receive(FromHub(EmptyQueue("hub", true)), 1);
    RestIsPossible(s);
    assert Outstanding(Apply(s, l, maxAttempts)) == Outstanding(s);
    hide Outstanding;
    var empty := InsertOnce(s.task.session.empty, "hub", true);
    assert "hub" in empty.Keys && |empty| == |empty.Keys|;
    assert |empty| >= 1;
    CountsAppend([], [], s.task.toTimer, [TimerCmd.StopTimer]);
    assert CountInits([TimerCmd.StopTimer]) == 0;
  }

  lemma HearEpoch(k: nat, v: View, maxAttempts: nat)
    requires Found(k, v, maxAttempts) && v.queued == []
    ensures Found(k, v.(sent := v.sent + [BalanceEpochOk]), maxAttempts)
  {
    hide Schedule, Execute, Stands, Init, Apply, Enabled;
    var ls :| Leads(Init(), ls, k, v, maxAttempts);
    var s, l := Execute(Init(), ls, maxAttempts), Label.Receive(Epoch(0), 0);
    var v' := v.(sent := v.sent + [BalanceEpochOk]);
    EpochStands(s, v, maxAttempts);
    OneStep(s, l, v', maxAttempts);
    FoundOn(ls, k, v, [l], 0, v', maxAttempts);
  }

  lemma Vote(k: nat, v: View, maxAttempts: nat)
    requires Found(k, v, maxAttempts) && v.queued == [] && ListensForHandshakes(v.st)
    ensures Found(k, v.(sent := v.sent + [NewMessageHandshake], voted := true), maxAttempts)
  {
    hide Schedule, Execute, Stands, Init, Apply, Enabled;
    var ls :| Leads(Init(), ls, k, v, maxAttempts);
    var s := Execute(Init(), ls, maxAttempts);
    var l, v' := Label.Receive(FromHub(HandshakeFromHub("hub", s.task.epoch)), 0),
                 v.(sent := v.sent + [NewMessageHandshake], voted := true);
    VoteStands(s, v, maxAttempts);
    OneStep(s, l, v', maxAttempts);
    FoundOn(ls, k, v, [l], 0, v', maxAttempts);
  }

  lemma Report(k: nat, v: View, maxAttempts: nat)
    requires Found(k, v, maxAttempts) && v.queued == [] && InPhase(v.st)
    ensures Found(k, v.(sent := v.sent + [QuorumPhase]), maxAttempts)
  {
    hide Schedule, Execute, Stands, Init, Apply, Enabled;
    var ls :| Leads(Init(), ls, k, v, maxAttempts);
    var s, l := Execute(Init(), ls, maxAttempts), Label.Receive(FromHub(EmptyQueue("hub", true)), 1);
    var v' := v.(sent := v.sent + [QuorumPhase]);
    ReportStands(s, v, maxAttempts);
    OneStep(s, l, v', maxAttempts);
    FoundOn(ls, k, v, [l], 0, v', maxAttempts);
  }

  // --- the two handshakes ------------------------------------------------------------------------------------

  function Waiting(out: bool, n: nat): Mode {
    if out then (if n == 0 then HandshakeOut else RepeatOut) else if n == 0 then HandshakeIn else RepeatIn
  }

  function Checking(out: bool): Mode { if out then CheckOut else CheckIn }

  function Again(out: bool): Action { OnEntryQuorum(if out then RepeatHandshakeOut else RepeatHandshakeIn) }

  function Check(out: bool): Action { OnEntryQuorum(if out then CheckQuorumOut else CheckQuorumIn) }

  function Asking(out: bool, n: nat): StateOfSession {
    if n > 0 then StateOfSession.RepeatHandshake
    else if out then StateOfSession.OutHandshake else StateOfSession.InHandshake
  }

  /** Round `n` of a handshake is open, `backlog` timers wait, and nothing else is on its way. */
  function Round(out: bool, n: nat, backlog: nat): View {
    View(Waiting(out, n), [], backlog, [], Asking(out, n), n, false)
  }

  /** Too few votes for any round. */
  lemma Refused(votes: nat, attempts: nat, maxAttempts: nat)
    requires votes <= 1 && attempts <= maxAttempts
    ensures Verdict(votes, attempts, maxAttempts, 1000) == NotApproveQuorum
  {
  }

  /** An open round is left by an expiry... */
  lemma RoundExpires(k: nat, out: bool, n: nat, backlog: nat, maxAttempts: nat)
    requires Found(k, Round(out, n, backlog + 1), maxAttempts)
    ensures Found(k + 1, View(Checking(out), [], backlog, OpenQuorum(Waiting(out, n)) + [Check(out)], Asking(out, n), n, false),
                  maxAttempts)
  {
    hide Found;
    Expire(k, Round(out, n, backlog + 1), maxAttempts);
    var v := View(Waiting(out, n), [Timeout], backlog, [], Asking(out, n), n, false);
    assert Expiring(Round(out, n, backlog + 1)) == v;
    Read(k + 1, v, Checking(out), maxAttempts);
    assert v.sent[1..] == [];
    assert Reading(v, Checking(out)).queued == OpenQuorum(Waiting(out, n)) + [Check(out)];
    assert Reading(v, Checking(out)) ==
           View(Checking(out), [], backlog, OpenQuorum(Waiting(out, n)) + [Check(out)], Asking(out, n), n, false);
  }

  /** ...checked... */
  lemma RoundChecked(k: nat, out: bool, n: nat, backlog: nat, st: StateOfSession, maxAttempts: nat)
    requires Found(k, View(Checking(out), [], backlog, OpenQuorum(Waiting(out, n)) + [Check(out)], st, n, false), maxAttempts)
    requires n <= maxAttempts
    ensures Found(k, View(Checking(out), [NotApproveQuorum], backlog, [], StateOfSession.Quorum, n, false), maxAttempts)
  {
    hide Found;
    var v := View(Checking(out), [], backlog, OpenQuorum(Waiting(out, n)) + [Check(out)], st, n, false);
    var v1 := View(Checking(out), [], backlog, [Check(out)], st, n, false);
    if n == 0 {
      Do(k, v, 1000, maxAttempts);
      assert v.queued[1..] == [Check(out)];
      assert Doing(v, 1000, maxAttempts) == v1;
    } else {
      assert v.queued == [Check(out)];
    }
    Refused(0, n, maxAttempts);
    hide Verdict;
    Do(k, v1, 1000, maxAttempts);
    assert v1.queued[1..] == [];
    assert Doing(v1, 1000, maxAttempts) ==
           View(Checking(out), [NotApproveQuorum], backlog, [], StateOfSession.Quorum, n, false);
  }

  /** ...and refused. */
  lemma RoundRefused(k: nat, out: bool, n: nat, backlog: nat, maxAttempts: nat)
    requires Found(k, View(Checking(out), [NotApproveQuorum], backlog, [], StateOfSession.Quorum, n, false), maxAttempts)
    ensures Found(k, Round(out, n + 1, backlog + 1), maxAttempts)
  {
    hide Found;
    var v := View(Checking(out), [NotApproveQuorum], backlog, [], StateOfSession.Quorum, n, false);
    var v1 := View(Waiting(out, n + 1), [], backlog, [Again(out)], StateOfSession.Quorum, n, false);
    Read(k, v, Waiting(out, n + 1), maxAttempts);
    assert v.sent[1..] == [];
    assert Reading(v, Waiting(out, n + 1)) == v1;
    Do(k, v1, 1000, maxAttempts);
    assert v1.queued[1..] == [];
    assert Doing(v1, 1000, maxAttempts) == Round(out, n + 1, backlog + 1);
  }

  lemma NextRound(k: nat, out: bool, n: nat, backlog: nat, maxAttempts: nat)
    requires Found(k, Round(out, n, backlog + 1), maxAttempts) && n <= maxAttempts
    ensures Found(k + 1, Round(out, n + 1, backlog + 1), maxAttempts)
  {
    hide *;
    RoundExpires(k, out, n, backlog, maxAttempts);
    RoundChecked(k + 1, out, n, backlog, Asking(out, n), maxAttempts);
    RoundRefused(k + 1, out, n, backlog, maxAttempts);
  }

  lemma {:induction false} Rounds(k: nat, out: bool, n: nat, backlog: nat, maxAttempts: nat)
    requires Found(k, Round(out, 0, backlog + 1), maxAttempts) && n <= maxAttempts + 1
    ensures Found(k + n, Round(out, n, backlog + 1), maxAttempts)
  {
    hide *;
    if n > 0 {
      Rounds(k, out, n - 1, backlog, maxAttempts);
      NextRound(k + n - 1, out, n - 1, backlog, maxAttempts);
    }
  }

  /** From power-on to the opening handshake. */
  lemma FirstRound(maxAttempts: nat)
    ensures Found(0, Round(false, 0, 1), maxAttempts)
  {
    InitFound(maxAttempts);
    hide Found;
    var v0 := POWER_ON;
    Do(0, v0, 0, maxAttempts);
    var v1 := Doing(v0, 0, maxAttempts);
    assert v1 == v0.(queued := []);
    HearEpoch(0, v1, maxAttempts);
    var v2 := v1.(sent := [BalanceEpochOk]);
    assert v1.(sent := v1.sent + [BalanceEpochOk]) == v2;
    Read(0, v2, HandshakeIn, maxAttempts);
    var v3 := Reading(v2, HandshakeIn);
    assert v3.queued == [OnEntryBalance(SubStateBalanceMode.InHandshake)] && v3.sent == [];
    Do(0, v3, 0, maxAttempts);
    assert Doing(v3, 0, maxAttempts) == Round(false, 0, 1);
  }

  const POWER_ON := View(AwaitingEpoch, [], 0, [OnEntryBalance(InitBalanceMode)], NoSession, 0, false)

  lemma InitFound(maxAttempts: nat)
    ensures Found(0, POWER_ON, maxAttempts)
  {
    assert Outstanding(Init()) == [OnEntryBalance(InitBalanceMode)] by {
      assert Init().actions[1..] == [];
      assert Flatten(Init().actions) == Init().actions[0] + Flatten<Action>([]);
    }
    assert Stands(Init(), POWER_ON);
    assert Leads(Init(), [], 0, POWER_ON, maxAttempts);
  }

  // --- from the last opening round that can be approved, through the phases ----------------------------------

  const COUNT := CalculateQuorum

  /** The hub votes twice, and two counts are asked for. */
  lemma CountsWait(k: nat, n: nat, maxAttempts: nat)
    requires Found(k, Round(false, n, 1), maxAttempts)
    ensures Found(k, View(Waiting(false, n), [], 1, [COUNT, COUNT], Asking(false, n), n, true), maxAttempts)
  {
    hide Found;
    var m, st := Waiting(false, n), Asking(false, n);
    Vote(k, Round(false, n, 1), maxAttempts);
    var v1 := View(m, [NewMessageHandshake], 1, [], st, n, true);
    assert Round(false, n, 1).(sent := Round(false, n, 1).sent + [NewMessageHandshake], voted := true) == v1;
    Vote(k, v1, maxAttempts);
    var v2 := View(m, [NewMessageHandshake, NewMessageHandshake], 1, [], st, n, true);
    assert v1.(sent := v1.sent + [NewMessageHandshake], voted := true) == v2;
    AskForCount(k, v2, [NewMessageHandshake], maxAttempts);
    var v3 := View(m, [NewMessageHandshake], 1, [COUNT], st, n, true);
    assert v2.(sent := [NewMessageHandshake], queued := v2.queued + [COUNT]) == v3;
    AskForCount(k, v3, [], maxAttempts);
    assert v3.queued + [COUNT] == [COUNT, COUNT];
  }

  lemma AskForCount(k: nat, v: View, rest: seq<Event>, maxAttempts: nat)
    requires Found(k, v, maxAttempts) && v.sent == [NewMessageHandshake] + rest
    requires v.mode in {HandshakeIn, RepeatIn, HandshakeOut, RepeatOut}
    ensures Found(k, v.(sent := rest, queued := v.queued + [COUNT]), maxAttempts)
  {
    hide Found;
    Read(k, v, v.mode, maxAttempts);
    assert v.sent[1..] == rest;
    assert Reading(v, v.mode) == v.(sent := rest, queued := v.queued + [COUNT]);
  }

  /** A count executed. */
  lemma DoCount(k: nat, v: View, total: nat, e: Event, rest: seq<Action>, maxAttempts: nat)
    requires Found(k, v, maxAttempts) && v.queued == [COUNT] + rest
    requires e == Verdict(if v.voted then 1 else 0, v.attempts, maxAttempts, total)
    ensures Found(k, v.(sent := v.sent + [e], queued := rest), maxAttempts)
  {
    hide Found, Verdict;
    Do(k, v, total, maxAttempts);
    assert v.queued[1..] == rest;
    assert Doing(v, total, maxAttempts) == v.(sent := v.sent + [e], queued := rest);
  }

  lemma ApprovedByOne(maxAttempts: nat)
    ensures Verdict(1, LastChance(maxAttempts), maxAttempts, 1) == ApproveQuorum
  {
    ApprovedIff(1, LastChance(maxAttempts), maxAttempts, 1);
  }

  /** The handshake timer runs out before they are executed: one refuses, one approves. */
  lemma RefusedThenApproved(k: nat, n: nat, maxAttempts: nat)
    requires n == LastChance(maxAttempts)
    requires Found(k, View(Waiting(false, n), [], 1, [COUNT, COUNT], Asking(false, n), n, true), maxAttempts)
    ensures Found(k + 1, View(Waiting(false, n), [Timeout, NotApproveQuorum, ApproveQuorum], 0, [], Asking(false, n), n, true),
                  maxAttempts)
  {
    hide Found, Waiting, Asking;
    var m, st := Waiting(false, n), Asking(false, n);
    var v := View(m, [], 1, [COUNT, COUNT], st, n, true);
    Expire(k, v, maxAttempts);
    var v1 := View(m, [Timeout], 0, [COUNT, COUNT], st, n, true);
    assert Expiring(v) == v1;
    Refused(1, n, maxAttempts);
    ApprovedByOne(maxAttempts);
    hide Verdict, LastChance;
    assert v1.queued == [COUNT] + [COUNT];
    DoCount(k + 1, v1, 1000, NotApproveQuorum, [COUNT], maxAttempts);
    var v2 := View(m, [Timeout, NotApproveQuorum], 0, [COUNT], st, n, true);
    assert v1.(sent := v1.sent + [NotApproveQuorum], queued := [COUNT]) == v2;
    assert v2.queued == [COUNT] + [];
    DoCount(k + 1, v2, 1, ApproveQuorum, [], maxAttempts);
    assert v2.sent + [ApproveQuorum] == [Timeout, NotApproveQuorum, ApproveQuorum];
  }

  const TO_ALERT: seq<Action> := [Action.StopTimer, OnEntryBalance(Phase), OnEntryPhase(Alert)]

  /** So the machine goes one round too far and enters Alert from it. */
  lemma AlertIsEntered(k: nat, n: nat, maxAttempts: nat)
    requires Found(k, View(Waiting(false, n), [Timeout, NotApproveQuorum, ApproveQuorum], 0, [], Asking(false, n), n, true),
                   maxAttempts)
    ensures Found(k, View(AlertPhase, [], 0, OpenQuorum(Waiting(false, n)) + [Check(false)] + [Again(false)] + TO_ALERT,
                          Asking(false, n), n, true), maxAttempts)
  {
    hide Found, Asking;
    var m, st := Waiting(false, n), Asking(false, n);
    var v := View(m, [Timeout, NotApproveQuorum, ApproveQuorum], 0, [], st, n, true);
    Read(k, v, CheckIn, maxAttempts);
    var v1 := View(CheckIn, [NotApproveQuorum, ApproveQuorum], 0, OpenQuorum(m) + [Check(false)], st, n, true);
    assert v.sent[1..] == v1.sent;
    assert Reading(v, CheckIn).queued == v1.queued;
    assert Reading(v, CheckIn) == v1;
    Read(k, v1, RepeatIn, maxAttempts);
    var v2 := View(RepeatIn, [ApproveQuorum], 0, v1.queued + [Again(false)], st, n, true);
    assert v1.sent[1..] == v2.sent;
    assert Reading(v1, RepeatIn) == v2;
    Read(k, v2, AlertPhase, maxAttempts);
    assert v2.sent[1..] == [];
    assert Reading(v2, AlertPhase) == View(AlertPhase, [], 0, v2.queued + TO_ALERT, st, n, true);
  }

  /** An action that counts nothing, executed. */
  lemma DoPlain(k: nat, v: View, a: Action, rest: seq<Action>, maxAttempts: nat)
    requires Found(k, v, maxAttempts) && v.queued == [a] + rest && !CountsVotes(a)
    ensures Found(k, v.(queued := rest, backlog := v.backlog + (if Arms(a) then 1 else 0), st := StateAfter(v.st, a),
                        attempts := AttemptsAfter(v.attempts, a), voted := v.voted && !ForgetsVotes(a)), maxAttempts)
  {
    hide Found, StateAfter, AttemptsAfter, Arms, CountsVotes, ForgetsVotes;
    Do(k, v, 0, maxAttempts);
    assert v.queued[1..] == rest && v.queued[0] == a;
  }

  /** The queued count is late, the queued round still starts its timer, then Alert is entered by the task. */
  lemma AlertIsExecuted(k: nat, n: nat, maxAttempts: nat)
    requires n <= maxAttempts
    requires Found(k, View(AlertPhase, [], 0, OpenQuorum(Waiting(false, n)) + [Check(false)] + [Again(false)] + TO_ALERT,
                           Asking(false, n), n, true), maxAttempts)
    ensures Found(k, View(AlertPhase, [], 2, [], PhaseAlert, 0, false), maxAttempts)
  {
    hide Found, Asking;
    var st := Asking(false, n);
    var o, tail := OpenQuorum(Waiting(false, n)), [Again(false)] + TO_ALERT;
    var v := View(AlertPhase, [], 0, o + [Check(false)] + [Again(false)] + TO_ALERT, st, n, true);
    var v1 := View(AlertPhase, [], 0, [Check(false)] + tail, st, n, true);
    if n == 0 {
      assert v.queued == [OnEntryBalance(SubStateBalanceMode.Quorum)] + v1.queued;
      DoPlain(k, v, OnEntryBalance(SubStateBalanceMode.Quorum), v1.queued, maxAttempts);
    } else {
      assert v.queued == v1.queued;
    }
    LateCount(k, v1, tail, maxAttempts);
    var v2 := View(AlertPhase, [], 0, tail, StateOfSession.Quorum, n, true);
    DoPlain(k, v2, Again(false), TO_ALERT, maxAttempts);
    var v3 := View(AlertPhase, [], 1, TO_ALERT, StateOfSession.RepeatHandshake, n + 1, false);
    assert TO_ALERT == [Action.StopTimer] + [OnEntryBalance(Phase), OnEntryPhase(Alert)];
    DoPlain(k, v3, Action.StopTimer, [OnEntryBalance(Phase), OnEntryPhase(Alert)], maxAttempts);
    var v4 := v3.(queued := [OnEntryBalance(Phase), OnEntryPhase(Alert)]);
    assert v4.queued == [OnEntryBalance(Phase)] + [OnEntryPhase(Alert)];
    DoPlain(k, v4, OnEntryBalance(Phase), [OnEntryPhase(Alert)], maxAttempts);
    var v5 := v4.(queued := [OnEntryPhase(Alert)]);
    assert v5.queued == [OnEntryPhase(Alert)] + [];
    DoPlain(k, v5, OnEntryPhase(Alert), [], maxAttempts);
  }

  /** A verdict that reaches the machine in Alert is ignored. */
  lemma LateCount(k: nat, v: View, rest: seq<Action>, maxAttempts: nat)
    requires Found(k, v, maxAttempts) && v.mode == AlertPhase && v.sent == [] && v.queued == [Check(false)] + rest
    requires v.attempts <= maxAttempts && v.voted
    ensures Found(k, v.(queued := rest, st := StateOfSession.Quorum), maxAttempts)
  {
    hide Found;
    Refused(1, v.attempts, maxAttempts);
    hide Verdict;
    Do(k, v, 1000, maxAttempts);
    var v1 := v.(sent := [NotApproveQuorum], queued := rest, st := StateOfSession.Quorum);
    assert v.queued[1..] == rest;
    assert Doing(v, 1000, maxAttempts) == v1;
    Ignore(k, v1, maxAttempts);
    assert v1.sent[1..] == [];
  }

  const TO_DATA: seq<Action> := [Action.StopTimer, OnEntryPhase(Data)]
  const TO_MONITOR: seq<Action> := [Action.StopTimer, OnEntryPhase(Monitor)]
  const TO_CLOSING: seq<Action> :=
    [StopSendHeartbeatMessagePhase, Action.StopTimer, OnEntryBalance(SubStateBalanceMode.OutHandshake)]

  lemma ThreeReports(k: nat, v: View, maxAttempts: nat)
    requires Found(k, v, maxAttempts) && v.queued == [] && v.sent == [] && InPhase(v.st)
    ensures Found(k, v.(sent := [QuorumPhase, QuorumPhase, QuorumPhase]), maxAttempts)
  {
    hide Found, InPhase;
    var q := QuorumPhase;
    Report(k, v, maxAttempts);
    assert v.sent + [q] == [q];
    Report(k, v.(sent := [q]), maxAttempts);
    assert [q] + [q] == [q, q];
    Report(k, v.(sent := [q, q]), maxAttempts);
    assert [q, q] + [q] == [q, q, q];
  }

  /** A report ends a phase. */
  lemma PhaseEnded(k: nat, v: View, rest: seq<Event>, to: Mode, acts: seq<Action>, maxAttempts: nat)
    requires Found(k, v, maxAttempts) && v.sent == [QuorumPhase] + rest && Target(v.mode, QuorumPhase) == Some(to)
    requires acts == Emitted(v.mode, QuorumPhase, to)
    ensures Found(k, v.(mode := to, sent := rest, queued := v.queued + acts), maxAttempts)
  {
    hide Found, Target, Emitted;
    assert v.sent[0] == QuorumPhase && v.sent[1..] == rest;
    Read(k, v, to, maxAttempts);
  }

  /** Three reports end all three phases before the task enters the second. */
  lemma PhasesPass(k: nat, maxAttempts: nat)
    requires Found(k, View(AlertPhase, [], 2, [], PhaseAlert, 0, false), maxAttempts)
    ensures Found(k, View(HandshakeOut, [], 2, TO_DATA + TO_MONITOR + TO_CLOSING, PhaseAlert, 0, false), maxAttempts)
  {
    hide Found;
    var q := QuorumPhase;
    ThreeReports(k, View(AlertPhase, [], 2, [], PhaseAlert, 0, false), maxAttempts);
    var v := View(AlertPhase, [q, q, q], 2, [], PhaseAlert, 0, false);
    assert v.sent == [q] + [q, q] && v.queued + TO_DATA == TO_DATA;
    PhaseEnded(k, v, [q, q], DataPhase, TO_DATA, maxAttempts);
    var v1 := View(DataPhase, [q, q], 2, TO_DATA, PhaseAlert, 0, false);
    assert v1.sent == [q] + [q];
    PhaseEnded(k, v1, [q], MonitorPhase, TO_MONITOR, maxAttempts);
    var v2 := View(MonitorPhase, [q], 2, TO_DATA + TO_MONITOR, PhaseAlert, 0, false);
    assert v2.sent == [q] + [];
    PhaseEnded(k, v2, [], HandshakeOut, TO_CLOSING, maxAttempts);
  }

  lemma PhaseExecuted(k: nat, v: View, p: SubStatePhase, rest: seq<Action>, maxAttempts: nat)
    requires Found(k, v, maxAttempts) && v.queued == [Action.StopTimer, OnEntryPhase(p)] + rest
    ensures Found(k, v.(queued := rest, backlog := v.backlog + 1, st := StateAfter(v.st, OnEntryPhase(p)), attempts := 0, voted := false),
                  maxAttempts)
  {
    hide Found, StateAfter;
    assert v.queued == [Action.StopTimer] + ([OnEntryPhase(p)] + rest);
    DoPlain(k, v, Action.StopTimer, [OnEntryPhase(p)] + rest, maxAttempts);
    StopsNothing(v.st);
    DoPlain(k, v.(queued := [OnEntryPhase(p)] + rest), OnEntryPhase(p), rest, maxAttempts);
  }

  lemma StopsNothing(st: StateOfSession)
    ensures StateAfter(st, Action.StopTimer) == st
  {
  }

  lemma PhasesExecuted(k: nat, maxAttempts: nat)
    requires Found(k, View(HandshakeOut, [], 2, TO_DATA + TO_MONITOR + TO_CLOSING, PhaseAlert, 0, false), maxAttempts)
    ensures Found(k, Round(true, 0, 5), maxAttempts)
  {
    hide Found;
    var v := View(HandshakeOut, [], 2, TO_DATA + TO_MONITOR + TO_CLOSING, PhaseAlert, 0, false);
    assert v.queued == TO_DATA + (TO_MONITOR + TO_CLOSING);
    PhaseExecuted(k, v, Data, TO_MONITOR + TO_CLOSING, maxAttempts);
    var v1 := View(HandshakeOut, [], 3, TO_MONITOR + TO_CLOSING, PhaseData, 0, false);
    PhaseExecuted(k, v1, Monitor, TO_CLOSING, maxAttempts);
    var v2 := View(HandshakeOut, [], 4, TO_CLOSING, PhaseMonitor, 0, false);
    var open := OnEntryBalance(SubStateBalanceMode.OutHandshake);
    assert TO_CLOSING == [StopSendHeartbeatMessagePhase] + [Action.StopTimer, open];
    DoPlain(k, v2, StopSendHeartbeatMessagePhase, [Action.StopTimer, open], maxAttempts);
    var v3 := v2.(queued := [Action.StopTimer, open]);
    assert v3.queued == [Action.StopTimer] + [open];
    DoPlain(k, v3, Action.StopTimer, [open], maxAttempts);
    var v4 := v2.(queued := [open]);
    assert v4.queued == [open] + [];
    DoPlain(k, v4, open, [], maxAttempts);
  }

  // --- five rounds beyond the count --------------------------------------------------------------------------

  const ROUND: seq<Action> := [Check(true), Again(true)]

  function Repeated(n: nat): seq<Action> { if n == 0 then [] else ROUND + Repeated(n - 1) }

  lemma FourVotes(k: nat, v: View, maxAttempts: nat)
    requires Found(k, v, maxAttempts) && v.queued == [] && v.sent == [] && ListensForHandshakes(v.st)
    ensures Found(k, v.(sent := [NewMessageHandshake, NewMessageHandshake, NewMessageHandshake, NewMessageHandshake], voted := true),
                  maxAttempts)
  {
    hide Found, ListensForHandshakes;
    var e := NewMessageHandshake;
    Vote(k, v, maxAttempts);
    assert v.sent + [e] == [e];
    Vote(k, v.(sent := [e], voted := true), maxAttempts);
    assert [e] + [e] == [e, e];
    Vote(k, v.(sent := [e, e], voted := true), maxAttempts);
    assert [e, e] + [e] == [e, e, e];
    Vote(k, v.(sent := [e, e, e], voted := true), maxAttempts);
    assert [e, e, e] + [e] == [e, e, e, e];
  }

  /** Four counts are asked for in the last round that can still be counted. */
  lemma FourCountsWait(k: nat, maxAttempts: nat)
    requires Found(k, Round(true, maxAttempts, 5), maxAttempts)
    ensures Found(k, View(Waiting(true, maxAttempts), [], 5, [COUNT] + [COUNT, COUNT, COUNT], Asking(true, maxAttempts),
                          maxAttempts, true), maxAttempts)
  {
    hide Found;
    var e, m, st := NewMessageHandshake, Waiting(true, maxAttempts), Asking(true, maxAttempts);
    FourVotes(k, Round(true, maxAttempts, 5), maxAttempts);
    var v := View(m, [e, e, e, e], 5, [], st, maxAttempts, true);
    hide Asking;
    assert v.sent == [e] + [e, e, e] && v.queued + [COUNT] == [COUNT];
    AskForCount(k, v, [e, e, e], maxAttempts);
    var v1 := v.(sent := [e, e, e], queued := [COUNT]);
    assert v1.sent == [e] + [e, e] && v1.queued + [COUNT] == [COUNT, COUNT];
    AskForCount(k, v1, [e, e], maxAttempts);
    var v2 := v.(sent := [e, e], queued := [COUNT, COUNT]);
    assert v2.sent == [e] + [e] && v2.queued + [COUNT] == [COUNT, COUNT, COUNT];
    AskForCount(k, v2, [e], maxAttempts);
    var v3 := v.(sent := [e], queued := [COUNT, COUNT, COUNT]);
    assert v3.sent == [e] + [] && v3.queued + [COUNT] == [COUNT] + [COUNT, COUNT, COUNT];
    AskForCount(k, v3, [], maxAttempts);
  }

  /** A stale expiry takes the machine to the check, and a count that does not know of the rounds since back. */
  lemma ExtraRound(k: nat, v: View, a: Action, rest: seq<Action>, next: seq<Action>, maxAttempts: nat)
    requires Found(k, v, maxAttempts) && v.mode in {HandshakeOut, RepeatOut} && v.sent == [] && v.backlog >= 1
    requires v.queued == [a] + rest && (a == COUNT || a == Check(true)) && v.attempts == maxAttempts && v.voted
    requires next == rest + OpenQuorum(v.mode) + ROUND
    ensures Found(k + 1, v.(mode := RepeatOut, backlog := v.backlog - 1, queued := next, st := StateAfter(v.st, a)), maxAttempts)
  {
    hide Found, StateAfter, Doing;
    Expire(k, v, maxAttempts);
    var v1 := v.(sent := [Timeout], backlog := v.backlog - 1);
    assert Expiring(v) == v1;
    Read(k + 1, v1, CheckOut, maxAttempts);
    var v2 := v1.(mode := CheckOut, sent := [], queued := [a] + rest + OpenQuorum(v.mode) + [Check(true)]);
    assert v1.sent[1..] == [];
    assert Reading(v1, CheckOut).queued == v2.queued;
    assert Reading(v1, CheckOut) == v2;
    Do(k + 1, v2, 1000, maxAttempts);
    var v3 := v2.(sent := [NotApproveQuorum], queued := rest + OpenQuorum(v.mode) + [Check(true)], st := StateAfter(v.st, a));
    CountRefuses(v2, a, v3.queued, maxAttempts);
    Read(k + 1, v3, RepeatOut, maxAttempts);
    assert v3.sent[1..] == [];
    assert Reading(v3, RepeatOut).queued == v3.queued + [Again(true)] == next;
  }

  lemma CountRefuses(v: View, a: Action, rest: seq<Action>, maxAttempts: nat)
    requires v.sent == [] && v.queued != [] && v.queued[0] == a && v.queued[1..] == rest
    requires (a == COUNT || a == Check(true)) && v.attempts == maxAttempts && v.voted
    ensures Doing(v, 1000, maxAttempts) == v.(sent := [NotApproveQuorum], queued := rest, st := StateAfter(v.st, a))
  {
    Refused(1, maxAttempts, maxAttempts);
    hide Verdict;
  }

  /** Four rounds on the counts that waited. */
  lemma FourExtraRounds(k: nat, maxAttempts: nat)
    requires Found(k, View(Waiting(true, maxAttempts), [], 5, [COUNT] + [COUNT, COUNT, COUNT], Asking(true, maxAttempts),
                           maxAttempts, true), maxAttempts)
    ensures Found(k + 4, View(RepeatOut, [], 1, OpenQuorum(Waiting(true, maxAttempts)) + Repeated(4), Asking(true, maxAttempts),
                              maxAttempts, true), maxAttempts)
  {
    hide Found, Asking;
    var m, st := Waiting(true, maxAttempts), Asking(true, maxAttempts);
    var o := OpenQuorum(m);
    assert OpenQuorum(RepeatOut) == [] && (m == HandshakeOut || m == RepeatOut);
    hide OpenQuorum, Repeated, Waiting, ROUND;
    var v := View(m, [], 5, [COUNT] + [COUNT, COUNT, COUNT], st, maxAttempts, true);
    ExtraRound(k, v, COUNT, [COUNT, COUNT, COUNT], [COUNT, COUNT, COUNT] + o + ROUND, maxAttempts);
    var v1 := View(RepeatOut, [], 4, [COUNT, COUNT, COUNT] + o + ROUND, st, maxAttempts, true);
    assert v1.queued == [COUNT] + ([COUNT, COUNT] + o + ROUND);
    ExtraRound(k + 1, v1, COUNT, [COUNT, COUNT] + o + ROUND, [COUNT, COUNT] + o + ROUND + [] + ROUND, maxAttempts);
    var v2 := View(RepeatOut, [], 3, [COUNT, COUNT] + o + ROUND + [] + ROUND, st, maxAttempts, true);
    var q2 := [COUNT] + o + ROUND + ROUND;
    assert v2.queued == [COUNT] + q2;
    ExtraRound(k + 2, v2, COUNT, q2, q2 + [] + ROUND, maxAttempts);
    var v3 := View(RepeatOut, [], 2, q2 + [] + ROUND, st, maxAttempts, true);
    var q3 := o + ROUND + ROUND + ROUND;
    assert v3.queued == [COUNT] + q3;
    ExtraRound(k + 3, v3, COUNT, q3, q3 + [] + ROUND, maxAttempts);
    FourRounds();
    assert q3 + [] + ROUND == o + Repeated(4);
  }

  lemma FourRounds()
    ensures Repeated(4) == ROUND + ROUND + ROUND + ROUND
  {
    assert Repeated(4) == ROUND + Repeated(3) && Repeated(3) == ROUND + Repeated(2);
    assert Repeated(2) == ROUND + Repeated(1) && Repeated(1) == ROUND + Repeated(0);
  }

  /** The machine is five rounds ahead of the counter, and five entries and four checks wait. */
  function FarAhead(maxAttempts: nat): View {
    View(RepeatOut, [], 0, [Again(true)] + Repeated(4), StateOfSession.Quorum, maxAttempts, true)
  }

  /** The entry of the quorum state, if it is queued, does nothing. */
  lemma QuorumOpened(k: nat, v: View, n: nat, rest: seq<Action>, maxAttempts: nat)
    requires Found(k, v.(queued := OpenQuorum(Waiting(true, n)) + rest), maxAttempts) && v.queued == rest
    ensures Found(k, v, maxAttempts)
  {
    hide Found;
    if n == 0 {
      var open := OnEntryBalance(SubStateBalanceMode.Quorum);
      assert OpenQuorum(Waiting(true, n)) == [open];
      DoPlain(k, v.(queued := [open] + rest), open, rest, maxAttempts);
    } else {
      assert OpenQuorum(Waiting(true, n)) + rest == rest;
    }
  }

  lemma FourthAndFifth()
    ensures var rest := [Again(true)] + ROUND + ROUND + ROUND;
            Repeated(4) == [Check(true)] + rest && rest + [] + ROUND == [Again(true)] + Repeated(4)
  {
    FourRounds();
    hide Repeated;
  }

  /** And a fifth on the first check. */
  lemma FifthExtraRound(k: nat, maxAttempts: nat)
    requires Found(k, View(RepeatOut, [], 1, OpenQuorum(Waiting(true, maxAttempts)) + Repeated(4), Asking(true, maxAttempts),
                           maxAttempts, true), maxAttempts)
    ensures Found(k + 1, FarAhead(maxAttempts), maxAttempts)
  {
    hide Found, Asking, Repeated, OpenQuorum, Waiting, ROUND, Again;
    var v := View(RepeatOut, [], 1, Repeated(4), Asking(true, maxAttempts), maxAttempts, true);
    QuorumOpened(k, v, maxAttempts, Repeated(4), maxAttempts);
    FourthAndFifth();
    NothingToOpen();
    var rest := [Again(true)] + ROUND + ROUND + ROUND;
    ExtraRound(k, v, Check(true), rest, rest + [] + ROUND, maxAttempts);
  }

  lemma NothingToOpen()
    ensures OpenQuorum(RepeatOut) == []
  {
  }

  // --- the worst run -------------------------------------------------------------------------------------------

  /** The opening handshake, up to the last round that can be approved. */
  lemma OpeningRun(maxAttempts: nat)
    ensures Found(LastChance(maxAttempts), Round(false, LastChance(maxAttempts), 1), maxAttempts)
  {
    hide Found, Round;
    FirstRound(maxAttempts);
    Rounds(0, false, LastChance(maxAttempts), 0, maxAttempts);
  }

  /** One round more, and the phases. */
  lemma PhasesRun(k: nat, n: nat, maxAttempts: nat)
    requires n == LastChance(maxAttempts) && n <= maxAttempts && Found(k, Round(false, n, 1), maxAttempts)
    ensures Found(k + 1, Round(true, 0, 5), maxAttempts)
  {
    hide *;
    CountsWait(k, n, maxAttempts);
    RefusedThenApproved(k, n, maxAttempts);
    AlertIsEntered(k + 1, n, maxAttempts);
    AlertIsExecuted(k + 1, n, maxAttempts);
    PhasesPass(k + 1, maxAttempts);
    PhasesExecuted(k + 1, maxAttempts);
  }

  /** The closing handshake, up to the last round that can be counted, and beyond. */
  lemma ClosingRun(k: nat, maxAttempts: nat)
    requires Found(k, Round(true, 0, 5), maxAttempts)
    ensures Found(k + maxAttempts + 5, FarAhead(maxAttempts), maxAttempts)
  {
    hide *;
    Rounds(k, true, maxAttempts, 4, maxAttempts);
    FourCountsWait(k + maxAttempts, maxAttempts);
    FourExtraRounds(k + maxAttempts, maxAttempts);
    FifthExtraRound(k + maxAttempts + 4, maxAttempts);
  }

  /** All the rounds there can be. */
  lemma AllRounds(maxAttempts: nat)
    ensures Found(maxAttempts + LastChance(maxAttempts) + 6, FarAhead(maxAttempts), maxAttempts)
  {
    hide Found, Round, FarAhead;
    var last := LastChance(maxAttempts);
    OpeningRun(maxAttempts);
    PhasesRun(last, last, maxAttempts);
    ClosingRun(last + 1, maxAttempts);
    assert last + 1 + maxAttempts + 5 == maxAttempts + last + 6;
  }

  /** The counter catches up, and the attempts are used up. */
  lemma OutOfAttempts(k: nat, maxAttempts: nat)
    requires Found(k, FarAhead(maxAttempts), maxAttempts)
    ensures Found(k + 1, View(Safe, [], 0, [Again(true)] + Repeated(3) + [Check(true), OnEntrySafeMode], StateOfSession.Quorum,
                              maxAttempts + 1, false), maxAttempts)
  {
    hide Found;
    var v := FarAhead(maxAttempts);
    DoPlain(k, v, Again(true), Repeated(4), maxAttempts);
    var v1 := View(RepeatOut, [], 1, Repeated(4), StateOfSession.RepeatHandshake, maxAttempts + 1, false);
    var rest := [Again(true)] + Repeated(3);
    assert Repeated(4) == [Check(true)] + rest;
    hide Repeated;
    Expire(k, v1, maxAttempts);
    var v2 := v1.(sent := [Timeout], backlog := 0);
    assert Expiring(v1) == v2;
    Do(k + 1, v2, 0, maxAttempts);
    var v3 := v2.(sent := [Timeout, NotApproveNotAttempts], queued := rest, st := StateOfSession.Quorum);
    assert v2.queued[1..] == rest;
    assert Doing(v2, 0, maxAttempts) == v3;
    hide Doing;
    LastVerdictRead(k + 1, v3, rest, maxAttempts);
  }

  lemma LastVerdictRead(k: nat, v: View, rest: seq<Action>, maxAttempts: nat)
    requires Found(k, v, maxAttempts) && v.mode == RepeatOut && v.sent == [Timeout, NotApproveNotAttempts] && v.queued == rest
    ensures Found(k, v.(mode := Safe, sent := [], queued := rest + [Check(true), OnEntrySafeMode]), maxAttempts)
  {
    hide Found;
    Read(k, v, CheckOut, maxAttempts);
    var v1 := v.(mode := CheckOut, sent := [NotApproveNotAttempts], queued := rest + [Check(true)]);
    assert v.sent[1..] == v1.sent;
    assert Reading(v, CheckOut).queued == v1.queued;
    assert Reading(v, CheckOut) == v1;
    Read(k, v1, Safe, maxAttempts);
    assert v1.sent[1..] == [];
    assert Reading(v1, Safe).queued == rest + [Check(true), OnEntrySafeMode];
  }

  /** Whatever waits can be executed, and whatever is started can run out. */
  lemma {:induction false} RunAllOut(k: nat, v: View, maxAttempts: nat) returns (v': View)
    requires Found(k, v, maxAttempts)
    ensures Found(k + v.backlog + CountArms(v.queued), v', maxAttempts)
    decreases |v.queued|, v.backlog
  {
    hide Found, Verdict, StateAfter, AttemptsAfter, CountsVotes, Arms, ForgetsVotes;
    if v.queued != [] {
      Do(k, v, 0, maxAttempts);
      v' := RunAllOut(k, Doing(v, 0, maxAttempts), maxAttempts);
    } else if v.backlog > 0 {
      Expire(k, v, maxAttempts);
      v' := RunAllOut(k + 1, Expiring(v), maxAttempts);
    } else {
      v' := v;
    }
  }

  lemma LastArms()
    ensures CountArms([Again(true)] + Repeated(3) + [Check(true), OnEntrySafeMode]) == 5
  {
    ArmsAppend([Again(true)] + Repeated(3), [Check(true), OnEntrySafeMode]);
    ArmsAppend([Again(true)], Repeated(3));
    FewArms([Again(true)]);
    FewArms([Check(true), OnEntrySafeMode]);
    ArmsOfRounds(3);
  }

  lemma {:induction false} ArmsOfRounds(n: nat)
    ensures CountArms(Repeated(n)) == n
  {
    if n > 0 {
      ArmsAppend(ROUND, Repeated(n - 1));
      FewArms(ROUND);
      ArmsOfRounds(n - 1);
    }
  }

  /** For every configuration there is an interleaving with exactly as many watchdog expiries as
      `ExpiriesAreBounded` allows. */
  lemma TheAsyncBoundIsReached(maxAttempts: nat)
    ensures exists ls :: Schedule(Init(), ls, maxAttempts) && Expiries(ls) == maxAttempts + LastChance(maxAttempts) + 12
  {
    AllRounds(maxAttempts);
    hide Found, Repeated, LastChance, CountArms;
    var k := maxAttempts + LastChance(maxAttempts) + 6;
    OutOfAttempts(k, maxAttempts);
    LastArms();
    var v := View(Safe, [], 0, [Again(true)] + Repeated(3) + [Check(true), OnEntrySafeMode], StateOfSession.Quorum, maxAttempts + 1, false);
    var v' := RunAllOut(k + 1, v, maxAttempts);
    FoundMeans(k + 6, v', maxAttempts);
  }

  lemma FoundRun(k: nat, v: View, maxAttempts: nat) returns (ls: seq<Label>)
    requires Found(k, v, maxAttempts)
    ensures Leads(Init(), ls, k, v, maxAttempts)
  {
    hide Leads;
    ls :| Leads(Init(), ls, k, v, maxAttempts);
  }

  lemma FoundMeans(k: nat, v: View, maxAttempts: nat)
    requires Found(k, v, maxAttempts)
    ensures exists ls :: Schedule(Init(), ls, maxAttempts) && Expiries(ls) == k
  {
    var ls := FoundRun(k, v, maxAttempts);
    hide Schedule, Execute, Stands, Init, Expiries;
    assert Schedule(Init(), ls, maxAttempts) && Expiries(ls) == k;
  }

  lemma {:induction false} AttemptsOfRounds(attempts: nat, n: nat)
    ensures ReplayAttempts(attempts, Repeated(n)) == attempts + n
    decreases n
  {
    if n > 0 {
      ReplayAppend(NoSession, attempts, ROUND, Repeated(n - 1));
      ReplayShort(NoSession, attempts, ROUND);
      AttemptsOfRounds(attempts + 1, n - 1);
    }
  }

  /** And one in which the closing handshake has as many repeat rounds as `RoundsAreBounded` allows. */
  lemma TheRoundsAreReached(maxAttempts: nat)
    ensures exists ls ::
              && Schedule(Init(), ls, maxAttempts)
              && var s := Execute(Init(), ls, maxAttempts);
                 WellFormed(s.fsm) && ModeOf(s.fsm) == RepeatOut && s.h.repeats == maxAttempts + 5
  {
    AllRounds(maxAttempts);
    AttemptsFarAhead(maxAttempts);
    hide *;
    var ls := FoundRun(maxAttempts + LastChance(maxAttempts) + 6, FarAhead(maxAttempts), maxAttempts);
    LeadsMeans(ls, maxAttempts + LastChance(maxAttempts) + 6, FarAhead(maxAttempts), maxAttempts);
    assert Schedule(Init(), ls, maxAttempts);
  }

  lemma AttemptsFarAhead(maxAttempts: nat)
    ensures var v := FarAhead(maxAttempts); v.mode == RepeatOut && ReplayAttempts(v.attempts, v.queued) == maxAttempts + 5
  {
    AttemptsOfRounds(maxAttempts + 1, 4);
    hide Repeated;
    assert FarAhead(maxAttempts).queued[1..] == Repeated(4);
  }

  lemma LeadsMeans(ls: seq<Label>, k: nat, v: View, maxAttempts: nat)
    requires Leads(Init(), ls, k, v, maxAttempts)
    ensures Schedule(Init(), ls, maxAttempts)
    ensures var s := Execute(Init(), ls, maxAttempts);
            WellFormed(s.fsm) && ModeOf(s.fsm) == v.mode && s.h.repeats == ReplayAttempts(v.attempts, v.queued)
  {
    hide Schedule, Execute, Init, ReplayAttempts, Replay, Outstanding;
    SessionLagsMachine(ls, maxAttempts);
  }
}
