/** The epoch of a run, in every interleaving: it is asked for once, every reply is told on once, and everything the
    hubs are asked or told afterwards carries it. Also, which states are reported. */
module FsmEpoch {
  import opened Common
  import opened FsmDomain
  import opened FsmTask
  import opened FsmSystem
  import opened FsmAsync
  import opened FsmStale

  predicate IsReply(l: Label) { l.Receive? && l.cmd.Epoch? }

  /** The replies of a run are 32-bit numbers. */
  predicate Wide(ls: seq<Label>) { forall l :: l in ls && IsReply(l) ==> l.cmd.epoch < U32 }

  /** Every message that carries an epoch carries this one. */
  predicate Labelled(ms: seq<CoreMessage>, epoch: nat) { forall m :: m in ms ==> m.GetEpoch? || m.epoch == epoch }

  lemma ActionLabels(a: Action, epoch: nat)
    ensures Labelled(CoreMessagesOf(a, epoch), epoch)
  {
  }

  /** A step that is no reply keeps the epoch, and labels what it sends with it. */
  lemma StepLabels(s: Sys, l: Label, maxAttempts: nat)
    requires Enabled(s, l) && !IsReply(l)
    ensures var t, t' := s.task, Apply(s, l, maxAttempts).task;
            && t'.epoch == t.epoch && t.toCore <= t'.toCore && Labelled(t'.toCore[|t.toCore|..], t.epoch)
  {
    hide Step, HandleAction, HandleCommand, CoreMessagesOf, CountRepeats;
    match l {
      case DoAction(total) =>
        var a := s.pending[0];
        ActionSends(s.task, a, maxAttempts, total);
        ActionReports(s.task, a, maxAttempts, total);
        ActionLabels(a, s.task.epoch);
      case Receive(c, total) => ReplySetsEpoch(s.task, c, total);
      case _ =>
    }
  }

  lemma LabelsJoin(a: seq<CoreMessage>, b: seq<CoreMessage>, c: seq<CoreMessage>, epoch: nat)
    requires a <= b <= c && Labelled(b[|a|..], epoch) && Labelled(c[|b|..], epoch)
    ensures a <= c && Labelled(c[|a|..], epoch)
  {
    assert c[|a|..] == b[|a|..] + c[|b|..];
  }

  lemma {:induction false} LabelsAlong(s: Sys, ls: seq<Label>, maxAttempts: nat)
    requires Schedule(s, ls, maxAttempts) && forall l :: l in ls ==> !IsReply(l)
    ensures var t, t' := s.task, Execute(s, ls, maxAttempts).task;
            && t'.epoch == t.epoch && t.toCore <= t'.toCore && Labelled(t'.toCore[|t.toCore|..], t.epoch)
    decreases |ls|
  {
    hide Apply, Enabled, IsReply, Labelled;
    if ls == [] {
      NothingLabelled(s.task.toCore, s.task.epoch);
    } else {
      assert ls == [ls[0]] + ls[1..];
      var s1 := Apply(s, ls[0], maxAttempts);
      StepLabels(s, ls[0], maxAttempts);
      LabelsAlong(s1, ls[1..], maxAttempts);
      LabelsJoin(s.task.toCore, s1.task.toCore, Execute(s1, ls[1..], maxAttempts).task.toCore, s.task.epoch);
    }
  }

  lemma NothingLabelled(ms: seq<CoreMessage>, epoch: nat)
    ensures Labelled(ms[|ms|..], epoch)
  {
  }

  /** Whatever the state and the interleaving: all that is sent to the core from the reply `Epoch(e)` on, until
      another reply, carries the epoch after `e`; and a handshake that still carries `e` changes nothing. */
  lemma LabelsAfterReply(s: Sys, e: nat, total: nat, after: seq<Label>, maxAttempts: nat)
    requires e < U32 && Enabled(s, Label.Receive(Epoch(e), total))
    requires Schedule(Apply(s, Label.Receive(Epoch(e), total), maxAttempts), after, maxAttempts)
    requires forall l :: l in after ==> !IsReply(l)
    ensures var t' := Execute(Apply(s, Label.Receive(Epoch(e), total), maxAttempts), after, maxAttempts).task;
            && t'.epoch == Succ(e)
            && s.task.toCore <= t'.toCore && Labelled(t'.toCore[|s.task.toCore|..], Succ(e))
            && forall sender, hubs :: HandleCommand(t', FromHub(HandshakeFromHub(sender, e)), hubs) == t'
  {
    var s1 := Apply(s, Label.Receive(Epoch(e), total), maxAttempts);
    ReplySetsEpoch(s.task, Epoch(e), total);
    assert s1.task.toCore[|s.task.toCore|..] == [NewEpoch(Succ(e))];
    hide Apply, Enabled, HandleCommand;
    LabelsAlong(s1, after, maxAttempts);
    var t' := Execute(s1, after, maxAttempts).task;
    LabelsJoin(s.task.toCore, s1.task.toCore, t'.toCore, Succ(e));
    forall sender, hubs ensures HandleCommand(t', FromHub(HandshakeFromHub(sender, e)), hubs) == t' {
      OtherEpochIsIgnored(t', sender, e, hubs);
    }
  }

  lemma OtherEpochIsIgnored(t: Task, sender: HubId, epoch: nat, total: nat)
    requires epoch != t.epoch
    ensures HandleCommand(t, FromHub(HandshakeFromHub(sender, epoch)), total) == t
  {
  }

  // --- one announcement per reply ----------------------------------------------------------------------------

  /** The epochs the replies of a run set, in order. */
  function Replies(ls: seq<Label>): seq<nat> {
    if ls == [] then [] else (if IsReply(ls[0]) then [Succ(ls[0].cmd.epoch)] else []) + Replies(ls[1..])
  }

  function EpochIn(m: CoreMessage): seq<nat> { match m case NewEpoch(e) => [e] case _ => [] }

  function EpochShown(g: StateGlobal): seq<nat> { match g case BalanceMode(e) => [e] case _ => [] }

  function FinalShown(g: StateGlobal): seq<StateGlobal> { match g case BalanceMode(_) => [] case _ => [g] }

  lemma ActionTellsNoEpoch(a: Action, epoch: nat)
    ensures Gather(EpochIn, CoreMessagesOf(a, epoch)) == [] && Gather(EpochShown, EdgeStatesOf(a)) == []
  {
    var ms, gs := CoreMessagesOf(a, epoch), EdgeStatesOf(a);
    if ms != [] { OneGathered(EpochIn, ms[0]); assert ms == [ms[0]]; }
    if gs != [] { OneGathered(EpochShown, gs[0]); assert gs == [gs[0]]; }
  }

  function Told(s: Sys): seq<nat> { Gather(EpochIn, s.task.toCore) }

  function Shown(s: Sys): seq<nat> { Gather(EpochShown, s.task.toEdge) }

  lemma StepTells(s: Sys, l: Label, maxAttempts: nat)
    requires Enabled(s, l) && Wide([l])
    ensures var s', more := Apply(s, l, maxAttempts), if IsReply(l) then [Succ(l.cmd.epoch)] else [];
            Told(s') == Told(s) + more && Shown(s') == Shown(s) + more
  {
    hide Step, HandleAction, HandleCommand, CoreMessagesOf, EdgeStatesOf, CountRepeats, Succ;
    match l {
      case DoAction(total) =>
        var a := s.pending[0];
        ActionSends(s.task, a, maxAttempts, total);
        ActionReports(s.task, a, maxAttempts, total);
        ActionTellsNoEpoch(a, s.task.epoch);
        GatherAppend(EpochIn, s.task.toCore, CoreMessagesOf(a, s.task.epoch));
        GatherAppend(EpochShown, s.task.toEdge, EdgeStatesOf(a));
      case Receive(c, total) =>
        assert l in [l];
        ReplySetsEpoch(s.task, c, total);
        if c.Epoch? {
          var e := Succ(c.epoch);
          OneGathered(EpochIn, NewEpoch(e));
          OneGathered(EpochShown, BalanceMode(e));
          GatherAppend(EpochIn, s.task.toCore, [NewEpoch(e)]);
          GatherAppend(EpochShown, s.task.toEdge, [BalanceMode(e)]);
        }
      case _ =>
    }
  }

  lemma {:induction false} TellsAlong(s: Sys, ls: seq<Label>, maxAttempts: nat)
    requires Schedule(s, ls, maxAttempts) && Wide(ls)
    ensures Told(Execute(s, ls, maxAttempts)) == Told(s) + Replies(ls)
    ensures Shown(Execute(s, ls, maxAttempts)) == Shown(s) + Replies(ls)
    decreases |ls|
  {
    hide Apply, Enabled, Told, Shown, IsReply;
    if ls != [] {
      assert ls == [ls[0]] + ls[1..];
      StepTells(s, ls[0], maxAttempts);
      TellsAlong(Apply(s, ls[0], maxAttempts), ls[1..], maxAttempts);
    }
  }

  /** In every interleaving the core is told, and the reported state shows, one new epoch for each reply, in
      order. */
  lemma EveryReplyIsTold(ls: seq<Label>, maxAttempts: nat)
    requires Schedule(Init(), ls, maxAttempts) && Wide(ls)
    ensures Told(Execute(Init(), ls, maxAttempts)) == Replies(ls)
    ensures Shown(Execute(Init(), ls, maxAttempts)) == Replies(ls)
  {
    TellsAlong(Init(), ls, maxAttempts);
    hide Schedule, Execute, Replies;
  }

  // --- the question, and the final states --------------------------------------------------------------------

  const ASK := OnEntryBalance(InitBalanceMode)

  /** The epoch has been asked for, or will be: once. */
  ghost predicate AsksOnce(s: Sys) {
    multiset(s.task.toCore)[GetEpoch] + multiset(Outstanding(s))[ASK] == 1
  }

  /** What has been reported besides epochs, and what is queued to be reported. */
  function Finals(s: Sys): seq<StateGlobal> {
    Gather(FinalShown, s.task.toEdge) + Gather(EdgeStatesOf, Outstanding(s))
  }

  /** What a mode has to report. */
  predicate Reports(m: Mode, gs: seq<StateGlobal>) {
    match m
    case Safe => gs == [StateGlobal.SafeMode]
    case Steady => gs == [Normal] || gs == [StateGlobal.SafeMode, Normal]
    case _ => gs == []
  }

  ghost predicate Reported(s: Sys) {
    WellFormed(s.fsm) && ModeOf(s.fsm) != Booting && AsksOnce(s) && Reports(ModeOf(s.fsm), Finals(s))
  }

  lemma ThreeReports(m: Mode, e: Event, to: Mode)
    requires ArrowShape(m, to)
    ensures var acts := Emitted(m, e, to);
            && |acts| <= 3
            && GatherAt(EdgeStatesOf, acts, 0) + GatherAt(EdgeStatesOf, acts, 1) + GatherAt(EdgeStatesOf, acts, 2)
               == (if to == Safe then [StateGlobal.SafeMode] else if to == Steady then [Normal] else [])
  {
    if to in {AwaitingEpoch, HandshakeIn, CheckIn, RepeatIn} {
    } else if to in {HandshakeOut, CheckOut, RepeatOut} {
    } else {
    }
  }

  lemma NeverAskedAgain(m: Mode, e: Event, to: Mode)
    requires to != AwaitingEpoch
    ensures ASK !in Emitted(m, e, to)
  {
  }

  lemma ArrowReports(m: Mode, e: Event, to: Mode, gs: seq<StateGlobal>)
    requires Target(m, e) == Some(to) && m != Booting && Reports(m, gs)
    ensures to != Booting && ASK !in Emitted(m, e, to)
    ensures Reports(to, gs + Gather(EdgeStatesOf, Emitted(m, e, to)))
  {
    ArrowIsShaped(m, e, to);
    NeverAskedAgain(m, e, to);
    ThreeReports(m, e, to);
    hide Emitted;
    GatherShort(EdgeStatesOf, Emitted(m, e, to));
  }

  lemma RunFsmReported(s: Sys, maxAttempts: nat)
    requires Reported(s) && s.task.toFsm != []
    ensures Reported(Apply(s, RunFsm, maxAttempts))
  {
    hide Step, Emitted, Target, Outstanding, Reports, EdgeStatesOf, FinalShown, Gather;
    var e, s' := s.task.toFsm[0], Apply(s, RunFsm, maxAttempts);
    RunFsmSilent(s, maxAttempts);
    if Step(s.fsm, e).Valid? {
      Accepted(s, maxAttempts);
      var m, to := ModeOf(s.fsm), ModeOf(s'.fsm);
      hide Apply;
      ArrowReports(m, e, to, Finals(s));
      GatherAppend(EdgeStatesOf, Outstanding(s), Emitted(m, e, to));
      assert Finals(s') == Finals(s) + Gather(EdgeStatesOf, Emitted(m, e, to));
      assert multiset(Outstanding(s')) == multiset(Outstanding(s)) + multiset(Emitted(m, e, to));
    } else {
      Rejected(s, maxAttempts);
      hide Apply;
    }
  }

  lemma RunFsmSilent(s: Sys, maxAttempts: nat)
    requires s.task.toFsm != []
    ensures var s' := Apply(s, RunFsm, maxAttempts); s'.task.toCore == s.task.toCore && s'.task.toEdge == s.task.toEdge
  {
    hide Step;
  }

  /** What an action reports, in one of the two places. */
  lemma ActionReported(a: Action, epoch: nat)
    ensures Gather(FinalShown, EdgeStatesOf(a)) == EdgeStatesOf(a)
    ensures multiset(CoreMessagesOf(a, epoch))[GetEpoch] == if a == ASK then 1 else 0
  {
    var gs := EdgeStatesOf(a);
    if gs != [] { OneGathered(FinalShown, gs[0]); assert gs == [gs[0]]; }
  }

  lemma ActionKeepsFinals(s: Sys, total: nat, maxAttempts: nat)
    requires s.pending != []
    ensures Finals(Apply(s, DoAction(total), maxAttempts)) == Finals(s)
  {
    hide HandleAction, Outstanding, CoreMessagesOf, EdgeStatesOf, FinalShown, RecordAction;
    var a, s' := s.pending[0], Apply(s, DoAction(total), maxAttempts);
    OutstandingAfter(s, DoAction(total), maxAttempts);
    ActionReports(s.task, a, maxAttempts, total);
    ActionReported(a, s.task.epoch);
    GatherAppend(EdgeStatesOf, [a], Outstanding(s'));
    OneGathered(EdgeStatesOf, a);
    hide Gather;
    GatherAppend(FinalShown, s.task.toEdge, EdgeStatesOf(a));
    var x, y, z := Gather(FinalShown, s.task.toEdge), EdgeStatesOf(a), Gather(EdgeStatesOf, Outstanding(s'));
    hide Apply;
    assert (x + y) + z == x + (y + z);
  }

  lemma ActionKeepsAsk(s: Sys, total: nat, maxAttempts: nat)
    requires s.pending != [] && AsksOnce(s)
    ensures AsksOnce(Apply(s, DoAction(total), maxAttempts))
  {
    hide HandleAction, Outstanding, CoreMessagesOf, EdgeStatesOf, RecordAction;
    var a, s' := s.pending[0], Apply(s, DoAction(total), maxAttempts);
    OutstandingAfter(s, DoAction(total), maxAttempts);
    ActionReports(s.task, a, maxAttempts, total);
    ActionReported(a, s.task.epoch);
  }

  lemma DoActionReported(s: Sys, total: nat, maxAttempts: nat)
    requires Reported(s) && s.pending != []
    ensures Reported(Apply(s, DoAction(total), maxAttempts))
  {
    ActionKeepsFinals(s, total, maxAttempts);
    ActionKeepsAsk(s, total, maxAttempts);
    hide HandleAction, Finals, AsksOnce, Reports, RecordAction;
  }

  lemma ReplyKeepsFinals(states: seq<StateGlobal>, ms: seq<CoreMessage>, e: nat)
    ensures Gather(FinalShown, states + [BalanceMode(e)]) == Gather(FinalShown, states)
    ensures multiset(ms + [NewEpoch(e)])[GetEpoch] == multiset(ms)[GetEpoch]
  {
    GatherAppend(FinalShown, states, [BalanceMode(e)]);
    OneGathered(FinalShown, BalanceMode(e));
  }

  lemma ReceiveReported(s: Sys, c: Command, total: nat, maxAttempts: nat)
    requires Reported(s) && s.pending == [] && Wide([Label.Receive(c, total)])
    ensures Reported(Apply(s, Label.Receive(c, total), maxAttempts))
  {
    hide HandleCommand, Reports, EdgeStatesOf, FinalShown, RecordCommand, Succ, Gather;
    var l := Label.Receive(c, total);
    assert l in [l];
    ReplySetsEpoch(s.task, c, total);
    assert Outstanding(Apply(s, l, maxAttempts)) == Outstanding(s);
    hide Outstanding;
    if c.Epoch? {
      ReplyKeepsFinals(s.task.toEdge, s.task.toCore, Succ(c.epoch));
    }
  }

  lemma OtherReported(s: Sys, l: Label, maxAttempts: nat)
    requires Reported(s) && Enabled(s, l) && !l.RunFsm? && !l.DoAction? && !l.Receive?
    ensures Reported(Apply(s, l, maxAttempts))
  {
    hide Reports, EdgeStatesOf, FinalShown;
    OutstandingAfter(s, l, maxAttempts);
    hide Outstanding;
  }

  lemma {:induction false} ReportedAlong(s: Sys, ls: seq<Label>, maxAttempts: nat)
    requires Reported(s) && Schedule(s, ls, maxAttempts) && Wide(ls)
    ensures Reported(Execute(s, ls, maxAttempts))
    decreases |ls|
  {
    hide Reported, Apply;
    if ls != [] {
      assert ls == [ls[0]] + ls[1..];
      match ls[0] {
        case RunFsm => RunFsmReported(s, maxAttempts);
        case DoAction(total) => DoActionReported(s, total, maxAttempts);
        case Receive(c, total) => ReceiveReported(s, c, total, maxAttempts);
        case _ => OtherReported(s, ls[0], maxAttempts);
      }
      ReportedAlong(Apply(s, ls[0], maxAttempts), ls[1..], maxAttempts);
    }
  }

  lemma InitReported()
    ensures Reported(Init())
  {
    assert Outstanding(Init()) == [ASK] by {
      assert Init().actions[1..] == [];
      assert Flatten(Init().actions) == Init().actions[0] + Flatten<Action>([]);
    }
    OneGathered(EdgeStatesOf, ASK);
    hide Outstanding;
  }

  /** In every interleaving the epoch is asked for once; and what has been reported besides epochs, with what is
      queued, is safe mode and Normal exactly as far as the machine has come: nothing before, safe mode in safe
      mode, Normal, after safe mode or not, in Normal. */
  lemma FinalStatesAreReported(ls: seq<Label>, maxAttempts: nat)
    requires Schedule(Init(), ls, maxAttempts) && Wide(ls)
    ensures var s := Execute(Init(), ls, maxAttempts);
            && WellFormed(s.fsm) && Reports(ModeOf(s.fsm), Finals(s))
            && multiset(s.task.toCore)[GetEpoch] + multiset(Outstanding(s))[ASK] == 1
  {
    InitReported();
    ReportedAlong(Init(), ls, maxAttempts);
    hide Reports, Finals, Schedule, Execute;
  }
}
