/** The three tasks of src/heartbeat in every interleaving: `run_fsm_heartbeat`, `heartbeat` and the watchdog,
    joined by FIFO channels. A stale expiry can be read after a heartbeat, and a start can be swallowed by a
    running watchdog; still the silence of the server is always noticed. */
module HeartbeatAsync {
  import opened Common
  import opened Watchdog
  import opened Heartbeat

  datatype Sys = Sys(
    fsm: Fsm,                          // run_fsm_heartbeat's variable
    sent: seq<Event>,                  // channel to run_fsm_heartbeat
    actions: seq<seq<Action>>,         // channel run_fsm_heartbeat -> heartbeat
    pending: seq<Action>,              // rest of the vector the heartbeat task is executing
    toTimer: seq<TimerCmd<State>>,     // channel to the watchdog
    timer: Timer<State>,
    notices: seq<InternalEvent>,       // told to the rest of the gateway
    read: seq<Event>)                  // history: what run_fsm_heartbeat has received

  const NEW_SYS := Sys(NEW_FSM, [], [], [], [], Idle, [], [])

  datatype Label = RunFsm | TakeVector | DoAction | WatchdogReceives | Hear | TimerFires

  /** A heartbeat of the server is heard, or the timer runs out. */
  predicate External(l: Label) { l.Hear? || l.TimerFires? }

  predicate Enabled(s: Sys, l: Label) {
    match l
    case RunFsm => s.sent != []
    case TakeVector => s.pending == [] && s.actions != []
    case DoAction => s.pending != []
    case WatchdogReceives => Listens(s.timer) && s.toTimer != []
    case Hear => s.pending == []
    case TimerFires => !s.timer.Idle?
  }

  function ApplyRunFsm(s: Sys): Sys
    requires s.sent != []
  {
    var s1 := s.(sent := s.sent[1..], read := s.read + [s.sent[0]]);
    match Step(s.fsm, s.sent[0])
    case Valid(next, acts) => s1.(fsm := next, actions := s.actions + [acts])
    case Invalid => s1
  }

  function Apply(s: Sys, l: Label): Sys
    requires Enabled(s, l)
  {
    match l
    case RunFsm => ApplyRunFsm(s)
    case TakeVector => s.(pending := s.actions[0], actions := s.actions[1..])
    case DoAction =>
      s.(pending := s.pending[1..], toTimer := s.toTimer + CommandsOf(s.pending[0]),
         notices := s.notices + NoticesOf(s.pending[0]))
    case WatchdogReceives => s.(timer := Receive(s.timer, s.toTimer[0]), toTimer := s.toTimer[1..])
    case Hear => s.(sent := s.sent + [Beat])
    case TimerFires => s.(timer := Idle, sent := s.sent + [Timeout])
  }

  ghost predicate Schedule(s: Sys, ls: seq<Label>)
    decreases |ls|
  {
    ls == [] || (Enabled(s, ls[0]) && Schedule(Apply(s, ls[0]), ls[1..]))
  }

  ghost function Execute(s: Sys, ls: seq<Label>): Sys
    requires Schedule(s, ls)
    decreases |ls|
  {
    if ls == [] then s else Execute(Apply(s, ls[0]), ls[1..])
  }

  /** Actions emitted and not yet executed, in order. */
  function Outstanding(s: Sys): seq<Action> { s.pending + Flatten(s.actions) }

  // --- what every interleaving keeps -------------------------------------------------------------------------

  /** What has been told, followed by what is queued to be told, is what the history read announces. */
  ghost predicate Told(s: Sys) {
    s.fsm == After(s.read) && s.notices + Gather(NoticesOf, Outstanding(s)) == Notices(s.read)
  }

  function Stream(s: Sys): seq<TimerCmd<State>> { s.toTimer + Gather(CommandsOf, Outstanding(s)) }

  /** Something has been read, and the server is not known to be dead. */
  predicate Waits(s: Sys) { s.read != [] && s.fsm.state != DeadServer }

  ghost predicate Watched(s: Sys) { Waits(s) ==> s.sent != [] || WillRun(s.timer, Stream(s)) }

  ghost predicate Living(s: Sys) { Told(s) && Watched(s) }

  lemma OutstandingAfter(s: Sys, l: Label)
    requires Enabled(s, l)
    ensures var s' := Apply(s, l);
            && (l.RunFsm? && Step(s.fsm, s.sent[0]).Valid? ==> Outstanding(s') == Outstanding(s) + Step(s.fsm, s.sent[0]).actions)
            && (l.DoAction? ==> Outstanding(s) == [s.pending[0]] + Outstanding(s'))
            && (!(l.RunFsm? && Step(s.fsm, s.sent[0]).Valid?) && !l.DoAction? ==> Outstanding(s') == Outstanding(s))
  {
    hide Step;
    if l.RunFsm? && Step(s.fsm, s.sent[0]).Valid? {
      FlattenAppend(s.actions, Step(s.fsm, s.sent[0]).actions);
    }
  }

  /** Every event read leads to a dead server, or its last command starts the watchdog. */
  lemma EventStarts(f: Fsm, e: Event)
    ensures var cs := CommandsAt(f, e);
            Next(f, e).state == DeadServer || (cs != [] && cs[|cs| - 1].InitTimer?)
  {
    CommandsByState(f, e);
    hide CommandsAt;
  }

  /** Reading one event, on the three streams. */
  lemma ReadsOne(s: Sys)
    requires s.sent != []
    ensures var s', e := Apply(s, RunFsm), s.sent[0];
            && s'.fsm == Next(s.fsm, e) && s'.read == s.read + [e] && s'.notices == s.notices
            && Gather(NoticesOf, Outstanding(s')) == Gather(NoticesOf, Outstanding(s)) + NoticesAt(s.fsm, e)
            && Stream(s') == Stream(s) + CommandsAt(s.fsm, e)
  {
    OutstandingAfter(s, RunFsm);
    var acts := ActionsOf(s.fsm, s.sent[0]);
    assert Outstanding(Apply(s, RunFsm)) == Outstanding(s) + acts;
    hide Step, Outstanding;
    GatherAppend(NoticesOf, Outstanding(s), acts);
    GatherAppend(CommandsOf, Outstanding(s), acts);
  }

  lemma RunFsmTold(s: Sys)
    requires Told(s) && s.sent != []
    ensures Told(Apply(s, RunFsm))
  {
    assert Enabled(s, RunFsm);
    hide *;
    ToldMeans(s);
    ReadsOne(s);
    HistoryGrows(s.read, s.sent[0]);
    Regrouped(s.notices, Gather(NoticesOf, Outstanding(s)), NoticesAt(s.fsm, s.sent[0]));
    ToldMeans(Apply(s, RunFsm));
  }

  /** `Told`, taken apart. */
  lemma ToldMeans(s: Sys)
    ensures Told(s) <==> s.fsm == After(s.read) && s.notices + Gather(NoticesOf, Outstanding(s)) == Notices(s.read)
  {
  }

  lemma Regrouped<T>(a: seq<T>, b: seq<T>, c: seq<T>)
    ensures (a + b) + c == a + (b + c)
  {
  }

  lemma RunFsmWatched(s: Sys)
    requires s.sent != []
    ensures Watched(Apply(s, RunFsm))
  {
    ReadsOne(s);
    EventStarts(s.fsm, s.sent[0]);
    hide Apply, Stream, Outstanding, Gather, NoticesAt, CommandsAt, Next;
    var s', cs := Apply(s, RunFsm), CommandsAt(s.fsm, s.sent[0]);
    if cs != [] {
      assert Stream(s')[|Stream(s')| - 1] == cs[|cs| - 1];
    }
  }

  lemma RunFsmLiving(s: Sys)
    requires Living(s) && s.sent != []
    ensures Living(Apply(s, RunFsm))
  {
    hide Told, Watched, Apply;
    RunFsmTold(s);
    RunFsmWatched(s);
  }

  lemma HistoryGrows(es: seq<Event>, e: Event)
    ensures After(es + [e]) == Next(After(es), e)
    ensures Notices(es + [e]) == Notices(es) + NoticesAt(After(es), e)
  {
    assert (es + [e])[..|es|] == es;
  }

  /** Executing an action moves its notices and commands from the queue to the channels. */
  lemma ActionMoves(s: Sys)
    requires s.pending != []
    ensures var s' := Apply(s, DoAction);
            && s'.fsm == s.fsm && s'.read == s.read && s'.sent == s.sent && s'.timer == s.timer
            && Stream(s') == Stream(s)
            && s'.notices + Gather(NoticesOf, Outstanding(s')) == s.notices + Gather(NoticesOf, Outstanding(s))
  {
    var a, rest := s.pending[0], Outstanding(Apply(s, DoAction));
    OutstandingAfter(s, DoAction);
    GatherHead(NoticesOf, a, rest);
    GatherHead(CommandsOf, a, rest);
    hide Outstanding, Gather, CommandsOf, NoticesOf;
    Regrouped(s.notices, NoticesOf(a), Gather(NoticesOf, rest));
    Regrouped(s.toTimer, CommandsOf(a), Gather(CommandsOf, rest));
  }

  lemma GatherHead<A, T>(f: A -> seq<T>, x: A, rest: seq<A>)
    ensures Gather(f, [x] + rest) == f(x) + Gather(f, rest)
  {
    assert ([x] + rest)[1..] == rest;
  }

  lemma ActionLiving(s: Sys)
    requires Living(s) && s.pending != []
    ensures Living(Apply(s, DoAction))
  {
    ActionMoves(s);
    hide Apply, Stream, Gather, Outstanding, After, Notices, WillRun;
  }

  lemma OtherLiving(s: Sys, l: Label)
    requires Living(s) && Enabled(s, l) && !l.RunFsm? && !l.DoAction?
    ensures Living(Apply(s, l))
  {
    OutstandingAfter(s, l);
    hide Outstanding, After, Notices;
    if l.WatchdogReceives? {
      assert Stream(s)[0] == s.toTimer[0] && Stream(s)[1..] == Stream(Apply(s, l));
      if WillRun(s.timer, Stream(s)) { ReceivedRuns(s.timer, Stream(s)); }
    }
  }

  lemma LivingKept(s: Sys, l: Label)
    requires Living(s) && Enabled(s, l)
    ensures Living(Apply(s, l))
  {
    hide Living, Apply;
    match l {
      case RunFsm => RunFsmLiving(s);
      case DoAction => ActionLiving(s);
      case _ => OtherLiving(s, l);
    }
  }

  lemma {:induction false} LivingAlong(s: Sys, ls: seq<Label>)
    requires Living(s) && Schedule(s, ls)
    ensures Living(Execute(s, ls))
    decreases |ls|
  {
    hide Living, Apply, Enabled;
    if ls != [] {
      LivingKept(s, ls[0]);
      LivingAlong(Apply(s, ls[0]), ls[1..]);
    }
  }

  lemma InitLiving()
    ensures Living(NEW_SYS)
  {
  }

  /** In every interleaving, what has been announced and what is queued to be announced alternate, beginning with
      a connection, and the last of them is the status of the machine. */
  lemma AnnouncementsAlternate(ls: seq<Label>)
    requires Schedule(NEW_SYS, ls)
    ensures var s := Execute(NEW_SYS, ls);
            Alternate(s.notices + Gather(NoticesOf, Outstanding(s)), s.fsm.status)
  {
    InitLiving();
    LivingAlong(NEW_SYS, ls);
    NoticesAlternate(Execute(NEW_SYS, ls).read);
    hide Schedule, Execute, Alternate, Watched, Gather, Notices, After;
  }

  /** Where no task can move, all channels are empty but for commands to a watchdog that does not listen. */
  lemma AtRest(s: Sys)
    requires forall l :: !External(l) ==> !Enabled(s, l)
    ensures s.sent == [] && s.pending == [] && s.actions == [] && (s.toTimer == [] || s.timer.Deaf?)
    ensures Outstanding(s) == []
  {
    assert !Enabled(s, RunFsm) && !Enabled(s, DoAction) && !Enabled(s, TakeVector) && !Enabled(s, WatchdogReceives);
  }

  /** In every interleaving: where no task can move, nothing has been received yet, or the server is known to be
      dead, or the watchdog is still to send a timeout. */
  lemma NeverStuck(ls: seq<Label>)
    requires Schedule(NEW_SYS, ls)
    requires forall l :: !External(l) ==> !Enabled(Execute(NEW_SYS, ls), l)
    ensures var s := Execute(NEW_SYS, ls);
            s.read == [] || s.fsm.state == DeadServer || !s.timer.Idle?
  {
    InitLiving();
    LivingAlong(NEW_SYS, ls);
    var s := Execute(NEW_SYS, ls);
    AtRest(s);
    hide Schedule, Execute, Enabled, Told;
    assert s.timer.Idle? ==> Stream(s) == [];
  }

  // --- silence -----------------------------------------------------------------------------------------------

  /** Bounds on the steps that can still follow without a heartbeat: of an event, an action, a command, and of
      the states in which an expiry counts. */
  function EventWeight(e: Event): nat { if e == Beat then 18 else 1 }

  function ActionWeight(a: Action): nat { if a.OnEntry? && a.state != DeadServer then 4 else if a.Halt? then 2 else 1 }

  function CommandWeight(c: TimerCmd<State>): nat { if c.InitTimer? then 3 else 1 }

  function StateWeight(st: State): nat {
    match st
    case DeadServer => 0
    case NotHeartbeatYet => 3
    case StartingWait | ItsAlive => 8
  }

  function EventsWeight(es: seq<Event>): nat {
    if es == [] then 0 else EventWeight(es[0]) + EventsWeight(es[1..])
  }

  function VectorWeight(acts: seq<Action>): nat {
    if acts == [] then 0 else ActionWeight(acts[0]) + VectorWeight(acts[1..])
  }

  function VectorsWeight(vs: seq<seq<Action>>): nat {
    if vs == [] then 0 else 1 + VectorWeight(vs[0]) + VectorsWeight(vs[1..])
  }

  function CommandsWeight(cs: seq<TimerCmd<State>>): nat {
    if cs == [] then 0 else CommandWeight(cs[0]) + CommandsWeight(cs[1..])
  }

  function Weight(s: Sys): nat {
    StateWeight(s.fsm.state) + EventsWeight(s.sent) + VectorsWeight(s.actions) + VectorWeight(s.pending)
    + CommandsWeight(s.toTimer) + (if s.timer.Idle? then 0 else 2)
  }

  lemma {:induction false} EventsWeightAppend(a: seq<Event>, e: Event)
    ensures EventsWeight(a + [e]) == EventsWeight(a) + EventWeight(e)
  {
    if a == [] {
      assert a + [e] == [e] && [e][1..] == [];
    } else {
      assert (a + [e])[0] == a[0] && (a + [e])[1..] == a[1..] + [e];
      EventsWeightAppend(a[1..], e);
    }
  }

  lemma {:induction false} VectorsWeightAppend(a: seq<seq<Action>>, v: seq<Action>)
    ensures VectorsWeight(a + [v]) == VectorsWeight(a) + 1 + VectorWeight(v)
  {
    if a == [] {
      assert a + [v] == [v] && [v][1..] == [];
    } else {
      assert (a + [v])[0] == a[0] && (a + [v])[1..] == a[1..] + [v];
      VectorsWeightAppend(a[1..], v);
    }
  }

  lemma {:induction false} CommandsWeightAppend(a: seq<TimerCmd<State>>, b: seq<TimerCmd<State>>)
    ensures CommandsWeight(a + b) == CommandsWeight(a) + CommandsWeight(b)
  {
    if a == [] {
      assert a + b == b;
    } else {
      assert (a + b)[0] == a[0] && (a + b)[1..] == a[1..] + b;
      CommandsWeightAppend(a[1..], b);
    }
  }

  function WeightAt(acts: seq<Action>, i: nat): nat { if i < |acts| then ActionWeight(acts[i]) else 0 }

  lemma {:induction false} ShortVector(acts: seq<Action>)
    requires |acts| <= 3
    ensures VectorWeight(acts) == WeightAt(acts, 0) + WeightAt(acts, 1) + WeightAt(acts, 2)
    decreases |acts|
  {
    if acts != [] {
      ShortVector(acts[1..]);
    }
  }

  /** A transition weighs less than the event it is for. */
  lemma TransitionIsLighter(f: Fsm, e: Event)
    requires Step(f, e).Valid?
    ensures StateWeight(Next(f, e).state) + 1 + VectorWeight(Step(f, e).actions) < StateWeight(f.state) + EventWeight(e)
  {
    ShortVector(Step(f, e).actions);
  }

  lemma CommandsWeigh(a: Action)
    ensures CommandsWeight(CommandsOf(a)) < ActionWeight(a)
  {
    var cs := CommandsOf(a);
    if cs != [] {
      assert cs[1..] == [];
    }
  }

  lemma RunFsmWeighs(s: Sys)
    requires s.sent != []
    ensures Weight(ApplyRunFsm(s)) < Weight(s)
  {
    hide EventWeight, StateWeight;
    var e := s.sent[0];
    if Step(s.fsm, e).Valid? {
      TransitionIsLighter(s.fsm, e);
      VectorsWeightAppend(s.actions, Step(s.fsm, e).actions);
      hide Step;
    } else {
      EventsWeigh(e);
    }
  }

  lemma EventsWeigh(e: Event)
    ensures EventWeight(e) >= 1
  {
  }

  /** Every step but the hearing of a heartbeat uses up weight. */
  lemma StepsUseWeight(s: Sys, l: Label)
    requires Enabled(s, l) && !l.Hear?
    ensures Weight(Apply(s, l)) < Weight(s)
  {
    hide Step;
    match l {
      case RunFsm => RunFsmWeighs(s);
      case DoAction =>
        CommandsWeigh(s.pending[0]);
        CommandsWeightAppend(s.toTimer, CommandsOf(s.pending[0]));
        hide CommandsOf, ActionWeight;
      case TimerFires => EventsWeightAppend(s.sent, Timeout);
      case _ =>
    }
  }

  predicate Silent(ls: seq<Label>) { Hear !in ls }

  /** Without heartbeats any interleaving of tasks and expiries stops after at most `Weight(s)` steps. */
  lemma {:induction false} SilenceEnds(s: Sys, ls: seq<Label>)
    requires Schedule(s, ls) && Silent(ls)
    ensures |ls| + Weight(Execute(s, ls)) <= Weight(s)
    decreases |ls|
  {
    hide Enabled, Apply, Weight;
    if ls != [] {
      assert ls == [ls[0]] + ls[1..];
      StepsUseWeight(s, ls[0]);
      SilenceEnds(Apply(s, ls[0]), ls[1..]);
    }
  }

  /** And where it stops the silence has been noticed: whatever stale expiries and swallowed starts there were,
      the server counts as disconnected, everybody has been told, and by an announcement of its own if it was
      ever announced as connected. */
  lemma SilenceIsAlwaysNoticed(ls: seq<Label>)
    requires Schedule(NEW_SYS, ls)
    requires forall l: Label :: !l.Hear? ==> !Enabled(Execute(NEW_SYS, ls), l)
    ensures var s := Execute(NEW_SYS, ls);
            && (s.read == [] || s.fsm.state == DeadServer)
            && s.fsm.status == Disconnected
            && s.notices == Notices(s.read)
            && (s.notices == [] || s.notices[|s.notices| - 1] == ServerDisconnected)
  {
    NothingLeft(Execute(NEW_SYS, ls));
    hide *;
    NeverStuck(ls);
    InitLiving();
    LivingAlong(NEW_SYS, ls);
    var s := Execute(NEW_SYS, ls);
    LivingIsTold(s);
    ToldMeans(s);
    DeadIsDisconnected(s.read);
    NoticesAlternate(s.read);
    LastNotice(Notices(s.read), s.fsm.status);
  }

  lemma NothingLeft(s: Sys)
    requires forall l: Label :: !l.Hear? ==> !Enabled(s, l)
    ensures s.timer.Idle? && s.notices + Gather(NoticesOf, Outstanding(s)) == s.notices
    ensures forall l :: !External(l) ==> !Enabled(s, l)
  {
    assert !Enabled(s, TimerFires);
    AtRest(s);
    hide Enabled;
  }

  lemma LivingIsTold(s: Sys)
    requires Living(s)
    ensures Told(s)
  {
  }

  lemma DeadIsDisconnected(es: seq<Event>)
    ensures es == [] || After(es).state == DeadServer ==> After(es).status == Disconnected
  {
    StatusIsOneField(es);
  }

  lemma LastNotice(ns: seq<InternalEvent>, now: Status)
    requires Alternate(ns, now) && now == Disconnected
    ensures ns == [] || ns[|ns| - 1] == ServerDisconnected
  {
  }
}
