/** What the hubs are told in a balance run (handshake requests and phase notifications), in every
    interleaving of the tasks. */
module FsmAnnouncements {
  import opened Common
  import opened FsmDomain
  import opened FsmTask
  import opened FsmSystem
  import opened FsmAsync

  datatype Note = Shake(flag: Flag) | Entered(phase: SubStatePhase)

  /** What a message to the core announces to the hubs. */
  function Announced(c: CoreMessage): seq<Note> {
    match c
    case HandshakeToHub(flag, _) => [Shake(flag)]
    case PhaseNotification(p, _) => [Entered(p)]
    case GetEpoch | NewEpoch(_) => []
  }

  /** What an action still to be executed will announce. */
  function Announces(a: Action): seq<Note> {
    match a
    case OnEntryBalance(InHandshake) => [Shake(In)]
    case OnEntryBalance(OutHandshake) => [Shake(Out)]
    case OnEntryQuorum(RepeatHandshakeIn) => [Shake(In)]
    case OnEntryQuorum(RepeatHandshakeOut) => [Shake(Out)]
    case OnEntryPhase(p) => [Entered(p)]
    case _ => []
  }

  /** Everything told, then everything still queued to be told. */
  function Notes(s: Sys): seq<Note> { Gather(Announced, s.task.toCore) + Gather(Announces, Outstanding(s)) }

  function Shakes(flag: Flag, n: nat): seq<Note> { seq(n, _ => Shake(flag)) }

  const PHASES: seq<Note> := [Entered(Alert), Entered(Data), Entered(Monitor)]

  /** How many phases a mode has behind or at it. */
  function PhasesBy(m: Mode): nat {
    match m
    case AlertPhase => 1
    case DataPhase => 2
    case MonitorPhase | HandshakeOut | CheckOut | RepeatOut => 3
    case _ => 0
  }

  /** A conversation so far: opening handshakes, phases, closing handshakes. */
  function Conversation(ins: nat, phases: nat, outs: nat): seq<Note>
    requires phases <= 3
  {
    Shakes(In, ins) + PHASES[..phases] + Shakes(Out, outs)
  }

  predicate Says(notes: seq<Note>, ins: nat, phases: nat, outs: nat) {
    phases <= 3 && notes == Conversation(ins, phases, outs)
  }

  /** The conversation that belongs to mode `m` after `n` repeat rounds of its handshake, where the opening
      handshake took `opening` of them. */
  predicate OnScript(m: Mode, n: nat, opening: nat, notes: seq<Note>) {
    match m
    case Booting | AwaitingEpoch => Says(notes, 0, 0, 0) && n == 0
    case HandshakeIn | CheckIn | RepeatIn => Says(notes, 1 + n, 0, 0)
    case AlertPhase | DataPhase | MonitorPhase => n == 0 && Says(notes, 1 + opening, PhasesBy(m), 0)
    case HandshakeOut | CheckOut | RepeatOut => Says(notes, 1 + opening, 3, 1 + n)
    case Safe | Steady => Says(notes, 0, 0, 0) || Says(notes, 1 + n, 0, 0) || Says(notes, 1 + opening, 3, 1 + n)
  }

  lemma MoreShakes(ins: nat, phases: nat, outs: nat)
    requires phases <= 3
    ensures phases == 0 && outs == 0 ==> Conversation(ins, 0, 0) + [Shake(In)] == Conversation(ins + 1, 0, 0)
    ensures outs == 0 && phases < 3 ==> Conversation(ins, phases, 0) + [PHASES[phases]] == Conversation(ins, phases + 1, 0)
    ensures Conversation(ins, phases, outs) + [Shake(Out)] == Conversation(ins, phases, outs + 1)
    ensures Conversation(0, 0, 0) == []
  {
    assert Shakes(In, ins) + [Shake(In)] == Shakes(In, ins + 1);
    assert Shakes(Out, outs) + [Shake(Out)] == Shakes(Out, outs + 1);
    assert phases < 3 ==> PHASES[..phases] + [PHASES[phases]] == PHASES[..phases + 1];
  }

  /** What the arrow from `m` to `to` adds. */
  function Adds(m: Mode, to: Mode): seq<Note> {
    if m == to then []
    else
      match to
      case HandshakeIn | RepeatIn => [Shake(In)]
      case HandshakeOut | RepeatOut => [Shake(Out)]
      case AlertPhase => [Entered(Alert)]
      case DataPhase => [Entered(Data)]
      case MonitorPhase => [Entered(Monitor)]
      case _ => []
  }

  lemma EmittedAnnounces(m: Mode, e: Event, to: Mode)
    requires ArrowShape(m, to)
    ensures Gather(Announces, Emitted(m, e, to)) == Adds(m, to)
  {
    if to in {AwaitingEpoch, HandshakeIn, CheckIn, RepeatIn} {
      OpeningAnnounces(m, e, to);
    } else {
      LaterAnnounces(m, e, to);
    }
    hide Emitted;
    GatherShort(Announces, Emitted(m, e, to));
  }

  ghost predicate AddsAt(m: Mode, to: Mode, acts: seq<Action>) {
    |acts| <= 3 && GatherAt(Announces, acts, 0) + GatherAt(Announces, acts, 1) + GatherAt(Announces, acts, 2) == Adds(m, to)
  }

  lemma OpeningAnnounces(m: Mode, e: Event, to: Mode)
    requires ArrowShape(m, to) && to in {AwaitingEpoch, HandshakeIn, CheckIn, RepeatIn}
    ensures AddsAt(m, to, Emitted(m, e, to))
  {
  }

  lemma LaterAnnounces(m: Mode, e: Event, to: Mode)
    requires ArrowShape(m, to) && to !in {AwaitingEpoch, HandshakeIn, CheckIn, RepeatIn}
    ensures AddsAt(m, to, Emitted(m, e, to))
  {
    if to in {HandshakeOut, CheckOut, RepeatOut} {
    } else {
    }
  }

  lemma StartKeepsScript(m: Mode, e: Event, to: Mode, n: nat, opening: nat, notes: seq<Note>)
    requires Target(m, e) == Some(to) && OnScript(m, n, opening, notes) && m in {Booting, AwaitingEpoch}
    ensures OnScript(to, RepeatsAfter(m, to, n), OpeningAfter(m, to, n, opening), notes + Adds(m, to))
  {
    hide Conversation;
    MoreShakes(0, 0, 0);
    assert notes + [] == notes;
  }

  lemma OpeningKeepsScript(m: Mode, e: Event, to: Mode, n: nat, opening: nat, notes: seq<Note>)
    requires Target(m, e) == Some(to) && OnScript(m, n, opening, notes) && m in {HandshakeIn, CheckIn, RepeatIn}
    ensures OnScript(to, RepeatsAfter(m, to, n), OpeningAfter(m, to, n, opening), notes + Adds(m, to))
  {
    hide Conversation;
    MoreShakes(1 + n, 0, 0);
    assert notes + [] == notes;
  }

  lemma PhaseKeepsScript(m: Mode, e: Event, to: Mode, n: nat, opening: nat, notes: seq<Note>)
    requires Target(m, e) == Some(to) && OnScript(m, n, opening, notes) && m in {AlertPhase, DataPhase, MonitorPhase}
    ensures OnScript(to, RepeatsAfter(m, to, n), OpeningAfter(m, to, n, opening), notes + Adds(m, to))
  {
    hide Conversation;
    MoreShakes(1 + opening, PhasesBy(m), 0);
    assert notes + [] == notes;
  }

  lemma ClosingKeepsScript(m: Mode, e: Event, to: Mode, n: nat, opening: nat, notes: seq<Note>)
    requires Target(m, e) == Some(to) && OnScript(m, n, opening, notes) && m in {HandshakeOut, CheckOut, RepeatOut}
    ensures OnScript(to, RepeatsAfter(m, to, n), OpeningAfter(m, to, n, opening), notes + Adds(m, to))
  {
    hide Conversation;
    MoreShakes(1 + opening, 3, 1 + n);
    assert notes + [] == notes;
  }

  lemma ArrowKeepsScript(m: Mode, e: Event, to: Mode, n: nat, opening: nat, notes: seq<Note>)
    requires Target(m, e) == Some(to) && OnScript(m, n, opening, notes)
    ensures OnScript(to, RepeatsAfter(m, to, n), OpeningAfter(m, to, n, opening), notes + Adds(m, to))
  {
    hide OnScript, Target, Adds, RepeatsAfter, OpeningAfter;
    match m {
      case Booting | AwaitingEpoch => StartKeepsScript(m, e, to, n, opening, notes);
      case HandshakeIn | CheckIn | RepeatIn => OpeningKeepsScript(m, e, to, n, opening, notes);
      case AlertPhase | DataPhase | MonitorPhase => PhaseKeepsScript(m, e, to, n, opening, notes);
      case HandshakeOut | CheckOut | RepeatOut => ClosingKeepsScript(m, e, to, n, opening, notes);
      case Safe | Steady => SafeKeepsScript(m, e, to, n, opening, notes);
    }
  }

  lemma SafeKeepsScript(m: Mode, e: Event, to: Mode, n: nat, opening: nat, notes: seq<Note>)
    requires Target(m, e) == Some(to) && OnScript(m, n, opening, notes) && m in {Safe, Steady}
    ensures OnScript(to, RepeatsAfter(m, to, n), OpeningAfter(m, to, n, opening), notes + Adds(m, to))
  {
    hide Conversation;
    assert notes + [] == notes;
  }

  // --- the tasks --------------------------------------------------------------------------------------

  lemma TellOne(told: seq<CoreMessage>, c: CoreMessage)
    ensures Gather(Announced, told + [c]) == Gather(Announced, told) + Announced(c)
  {
    GatherAppend(Announced, told, [c]);
    assert [c][1..] == [] && Gather(Announced, [c]) == Announced(c) + Gather(Announced, []);
  }

  /** Executing an action tells the hubs exactly what the action announces. */
  lemma ActionTells(t: Task, a: Action, maxAttempts: nat, total: nat)
    ensures Gather(Announced, HandleAction(t, a, maxAttempts, total).toCore) == Gather(Announced, t.toCore) + Announces(a)
  {
    var told := HandleAction(t, a, maxAttempts, total).toCore;
    assert told == t.toCore || (|told| == |t.toCore| + 1 && told == t.toCore + [told[|t.toCore|]]);
    if told != t.toCore {
      TellOne(t.toCore, told[|t.toCore|]);
      assert Announced(told[|t.toCore|]) == Announces(a);
    } else {
      assert Announces(a) == [];
    }
  }

  lemma CommandTellsNothing(t: Task, c: Command, total: nat)
    ensures Gather(Announced, HandleCommand(t, c, total).toCore) == Gather(Announced, t.toCore)
  {
    if c.Epoch? {
      TellOne(t.toCore, NewEpoch((c.epoch + 1) % U32));
    }
  }

  ghost predicate Scripted(s: Sys) { WellFormed(s.fsm) && OnScript(ModeOf(s.fsm), s.h.repeats, s.h.opening, Notes(s)) }

  lemma NotesAfterRunFsm(s: Sys)
    requires WellFormed(s.fsm) && s.task.toFsm != [] && Step(s.fsm, s.task.toFsm[0]).Valid?
    ensures var s' := ApplyRunFsm(s);
            && WellFormed(s'.fsm)
            && Target(ModeOf(s.fsm), s.task.toFsm[0]) == Some(ModeOf(s'.fsm))
            && Notes(s') == Notes(s) + Adds(ModeOf(s.fsm), ModeOf(s'.fsm))
  {
    hide Step, Emitted, Adds, Target, CountRepeats, Gather, Announces, Announced;
    var e := s.task.toFsm[0];
    var s' := ApplyRunFsm(s);
    StepIsFlat(s.fsm, e);
    var m, to := ModeOf(s.fsm), ModeOf(s'.fsm);
    var acts := Emitted(m, e, to);
    FlattenAppend(s.actions, acts);
    assert Outstanding(s') == Outstanding(s) + acts;
    GatherAppend(Announces, Outstanding(s), acts);
    ArrowIsShaped(m, e, to);
    EmittedAnnounces(m, e, to);
  }

  lemma OpeningIsKept(s: Sys)
    requires WellFormed(s.fsm) && s.task.toFsm != [] && Step(s.fsm, s.task.toFsm[0]).Valid? && WellFormed(ApplyRunFsm(s).fsm)
    ensures ApplyRunFsm(s).h.opening == OpeningAfter(ModeOf(s.fsm), ModeOf(ApplyRunFsm(s).fsm), s.h.repeats, s.h.opening)
  {
    hide Step;
  }

  lemma RunFsmKeepsScript(s: Sys)
    requires Scripted(s) && s.task.toFsm != []
    ensures Scripted(ApplyRunFsm(s))
  {
    hide Step, OnScript, Adds, Target, CountRepeats, RepeatsAfter;
    var e := s.task.toFsm[0];
    var s' := ApplyRunFsm(s);
    if Step(s.fsm, e).Valid? {
      NotesAfterRunFsm(s);
      var m, to := ModeOf(s.fsm), ModeOf(s'.fsm);
      ModesCountRepeats(s.fsm, s'.fsm, s.h.repeats);
      OpeningIsKept(s);
      ArrowKeepsScript(m, e, to, s.h.repeats, s.h.opening, Notes(s));
      hide Notes;
    }
  }

  lemma NotesAfterAction(s: Sys, total: nat, maxAttempts: nat)
    requires s.pending != []
    ensures Notes(ApplyDoAction(s, total, maxAttempts)) == Notes(s)
  {
    hide HandleAction, Announces, Announced, RecordAction;
    var s' := ApplyDoAction(s, total, maxAttempts);
    OutstandingAfter(s, DoAction(total), maxAttempts);
    ActionTells(s.task, s.pending[0], maxAttempts, total);
    assert Outstanding(s)[1..] == Outstanding(s') && Outstanding(s)[0] == s.pending[0];
    hide Outstanding;
  }

  lemma StepKeepsScript(s: Sys, l: Label, maxAttempts: nat)
    requires Scripted(s) && Enabled(s, l)
    ensures Scripted(Apply(s, l, maxAttempts))
  {
    hide Step, HandleAction, HandleCommand, OnScript, Gather, Announces, Announced;
    match l {
      case RunFsm => RunFsmKeepsScript(s);
      case DoAction(total) =>
        NotesAfterAction(s, total, maxAttempts);
        hide Notes;
      case Receive(c, total) => CommandTellsNothing(s.task, c, total);
      case _ => OutstandingAfter(s, l, maxAttempts);
    }
  }

  lemma {:induction false} ScriptAlong(s: Sys, ls: seq<Label>, maxAttempts: nat)
    requires Scripted(s) && Schedule(s, ls, maxAttempts)
    ensures Scripted(Execute(s, ls, maxAttempts))
    decreases |ls|
  {
    hide Scripted, Apply, Enabled;
    if ls != [] {
      StepKeepsScript(s, ls[0], maxAttempts);
      ScriptAlong(Apply(s, ls[0], maxAttempts), ls[1..], maxAttempts);
    }
  }

  lemma InitScripted()
    ensures Scripted(Init())
  {
    InitAsync();
    var s := Init();
    assert Outstanding(s) == [OnEntryBalance(InitBalanceMode)] by {
      assert s.actions[1..] == [] && Flatten(s.actions) == s.actions[0] + Flatten<Action>([]);
    }
    GatherShort(Announces, Outstanding(s));
    assert Notes(s) == [];
  }

  /** In every interleaving: what the hubs have been told, followed by what is queued to be told, is one
      opening handshake and one repetition per repeat round, then Alert, Data and Monitor once each as far
      as the machine has come, then one closing handshake and one repetition per repeat round. */
  lemma HubsAreToldInOrder(ls: seq<Label>, maxAttempts: nat)
    requires Schedule(Init(), ls, maxAttempts)
    ensures var s := Execute(Init(), ls, maxAttempts);
            WellFormed(s.fsm) && OnScript(ModeOf(s.fsm), s.h.repeats, s.h.opening, Notes(s))
  {
    InitScripted();
    ScriptAlong(Init(), ls, maxAttempts);
    hide OnScript, Notes;
  }
}
