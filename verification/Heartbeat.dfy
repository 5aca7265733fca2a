/** The heartbeat state machine (src/heartbeat), its executor, its watchdog, and the drain trigger it
    drives in `dba_get_task` (src/database/logic.rs:290-318). */
module Heartbeat {
  import opened Common
  import opened Watchdog

  datatype State = StartingWait | ItsAlive | DeadServer | NotHeartbeatYet

  datatype Status = Disconnected | Connected

  /** `Beat` is the event of a received heartbeat; the timer commands of the source's enum are
      `Watchdog.TimerCmd` here. */
  datatype Event = Beat | Timeout

  /** `Halt` asks for the watchdog to be stopped. */
  datatype Action = SendStatusConditional(oldStatus: Status, newStatus: Status) | OnEntry(state: State) | Halt

  datatype Fsm = Fsm(state: State, oldStatus: Status, status: Status)

  const NEW_FSM := Fsm(StartingWait, Disconnected, Disconnected)

  datatype Transition = Valid(next: Fsm, actions: seq<Action>) | Invalid

  function StepInner(f: Fsm, e: Event): Transition {
    match (f.state, e)
    case (StartingWait, Beat) =>
      Valid(Fsm(ItsAlive, Connected, Connected), [SendStatusConditional(f.oldStatus, Connected), Halt])
    case (StartingWait, Timeout) => Valid(f.(state := NotHeartbeatYet), [])
    case (ItsAlive, Beat) => Valid(f.(state := StartingWait), [Halt])
    case (ItsAlive, Timeout) => Valid(f.(state := NotHeartbeatYet), [])
    case (NotHeartbeatYet, Beat) => Valid(f.(state := StartingWait), [Halt])
    case (NotHeartbeatYet, Timeout) =>
      Valid(Fsm(DeadServer, Disconnected, Disconnected), [SendStatusConditional(f.oldStatus, Disconnected)])
    case (DeadServer, Beat) => Valid(f.(state := StartingWait), [])
    case (DeadServer, Timeout) => Invalid
  }

  function Step(f: Fsm, e: Event): Transition {
    match StepInner(f, e)
    case Valid(next, actions) => Valid(next, if f.state != next.state then actions + [OnEntry(next.state)] else actions)
    case Invalid => Invalid
  }

  /** An invalid transition is logged and changes nothing. */
  function Next(f: Fsm, e: Event): Fsm {
    match Step(f, e) case Valid(next, _) => next case Invalid => f
  }

  function ActionsOf(f: Fsm, e: Event): seq<Action> {
    match Step(f, e) case Valid(_, actions) => actions case Invalid => []
  }

  datatype InternalEvent = ServerConnected | ServerDisconnected | OtherEvent

  /** What the executor tells the rest of the gateway. */
  function NoticesOf(a: Action): seq<InternalEvent> {
    match a
    case SendStatusConditional(o, n) =>
      if o == n then [] else if n == Connected then [ServerConnected] else [ServerDisconnected]
    case _ => []
  }

  /** What the executor tells the watchdog. */
  function CommandsOf(a: Action): seq<TimerCmd<State>> {
    match a
    case OnEntry(s) => if s == DeadServer then [] else [InitTimer(s)]
    case Halt => [StopTimer]
    case SendStatusConditional(_, _) => []
  }

  function NoticesAt(f: Fsm, e: Event): seq<InternalEvent> { Gather(NoticesOf, ActionsOf(f, e)) }

  function CommandsAt(f: Fsm, e: Event): seq<TimerCmd<State>> { Gather(CommandsOf, ActionsOf(f, e)) }

  function After(es: seq<Event>): Fsm {
    if es == [] then NEW_FSM else Next(After(es[..|es| - 1]), es[|es| - 1])
  }

  function Notices(es: seq<Event>): seq<InternalEvent> {
    if es == [] then [] else Notices(es[..|es| - 1]) + NoticesAt(After(es[..|es| - 1]), es[|es| - 1])
  }

  function Commands(es: seq<Event>): seq<TimerCmd<State>> {
    if es == [] then [] else Commands(es[..|es| - 1]) + CommandsAt(After(es[..|es| - 1]), es[|es| - 1])
  }

  // --- the two tasks, step by step -------------------------------------------------------------------------

  /** The action arm of `heartbeat`: one action after the other. */
  method ExecuteActions(actions: seq<Action>) returns (notices: seq<InternalEvent>, commands: seq<TimerCmd<State>>)
    ensures notices == Gather(NoticesOf, actions)
    ensures commands == Gather(CommandsOf, actions)
  {
    notices, commands := [], [];
    for i := 0 to |actions|
      invariant notices == Gather(NoticesOf, actions[..i])
      invariant commands == Gather(CommandsOf, actions[..i])
    {
      GatherLast(NoticesOf, actions, i);
      GatherLast(CommandsOf, actions, i);
      match actions[i] {
        case OnEntry(s) =>
          match s {
            case StartingWait | NotHeartbeatYet | ItsAlive => commands := commands + [InitTimer(s)];
            case DeadServer =>
          }
        case SendStatusConditional(o, n) =>
          if o != n {
            if n == Connected {
              notices := notices + [ServerConnected];
            }
            if n == Disconnected {
              notices := notices + [ServerDisconnected];
            }
          }
        case Halt => commands := commands + [StopTimer];
      }
    }
    assert actions[..|actions|] == actions;
  }

  lemma GatherLast<A, T>(f: A -> seq<T>, xs: seq<A>, i: nat)
    requires i < |xs|
    ensures Gather(f, xs[..i + 1]) == Gather(f, xs[..i]) + f(xs[i])
  {
    assert xs[..i + 1] == xs[..i] + [xs[i]];
    GatherAppend(f, xs[..i], [xs[i]]);
    assert [xs[i]][1..] == [] && Gather(f, [xs[i]]) == f(xs[i]) + Gather(f, []);
  }

  /** `run_fsm_heartbeat` feeding `heartbeat`. */
  method RunFsmHeartbeat(es: seq<Event>) returns (state: Fsm, notices: seq<InternalEvent>, commands: seq<TimerCmd<State>>)
    ensures state == After(es) && notices == Notices(es) && commands == Commands(es)
  {
    state, notices, commands := NEW_FSM, [], [];
    for i := 0 to |es|
      invariant state == After(es[..i]) && notices == Notices(es[..i]) && commands == Commands(es[..i])
    {
      assert es[..i + 1][..i] == es[..i];
      match Step(state, es[i]) {
        case Valid(next, actions) =>
          var n, c := ExecuteActions(actions);
          notices, commands := notices + n, commands + c;
          state := next;
        case Invalid =>
      }
    }
    assert es[..|es|] == es;
  }

  // --- what the machine remembers ---------------------------------------------------------------------------

  /** How many events in a row, up to now, were `e`. */
  function Trailing(es: seq<Event>, e: Event): nat {
    if es == [] || es[|es| - 1] != e then 0 else 1 + Trailing(es[..|es| - 1], e)
  }

  /** The state a history leads to, read off its tail alone: two expiries in a row are death, one is a
      warning, and heartbeats alternate between the two live states. */
  function StateByTail(es: seq<Event>): State {
    var beats := Trailing(es, Beat);
    if Trailing(es, Timeout) >= 2 then DeadServer
    else if Trailing(es, Timeout) == 1 then NotHeartbeatYet
    else if (beats == |es|) == (beats % 2 == 0) then StartingWait
    else ItsAlive
  }

  lemma {:induction false} TrailingBound(es: seq<Event>, e: Event)
    ensures Trailing(es, e) <= |es|
    ensures es != [] && es[|es| - 1] != e ==> Trailing(es, e) == 0
  {
    if es != [] {
      TrailingBound(es[..|es| - 1], e);
    }
  }

  function Moved(s: State, e: Event): State {
    match (s, e)
    case (StartingWait, Beat) => ItsAlive
    case (_, Beat) => StartingWait
    case (StartingWait, Timeout) | (ItsAlive, Timeout) => NotHeartbeatYet
    case (_, Timeout) => DeadServer
  }

  lemma NextMoves(f: Fsm, e: Event)
    ensures Next(f, e).state == Moved(f.state, e)
  {
  }

  lemma TailAfterBeat(es: seq<Event>)
    requires es != [] && es[|es| - 1] == Beat
    ensures StateByTail(es) == Moved(StateByTail(es[..|es| - 1]), Beat)
  {
    var before := es[..|es| - 1];
    TrailingBound(before, Beat);
    TrailingBound(before, Timeout);
    assert Trailing(es, Timeout) == 0 && Trailing(es, Beat) == 1 + Trailing(before, Beat);
    hide Trailing;
  }

  lemma TailAfterTimeout(es: seq<Event>)
    requires es != [] && es[|es| - 1] == Timeout
    ensures StateByTail(es) == Moved(StateByTail(es[..|es| - 1]), Timeout)
  {
    assert Trailing(es, Timeout) == 1 + Trailing(es[..|es| - 1], Timeout);
    hide Trailing;
  }

  lemma {:induction false} StateFollowsTheTail(es: seq<Event>)
    ensures After(es).state == StateByTail(es)
  {
    if es != [] {
      var n := |es| - 1;
      hide StateByTail, Moved, Next;
      StateFollowsTheTail(es[..n]);
      NextMoves(After(es[..n]), es[n]);
      if es[n] == Beat { TailAfterBeat(es); } else { TailAfterTimeout(es); }
    }
  }

  /** No two expiries in a row from index `i` on. */
  predicate NoDouble(es: seq<Event>, i: nat) {
    forall j :: i <= j < |es| - 1 ==> !(es[j] == Timeout && es[j + 1] == Timeout)
  }

  /** Some earlier prefix reached `ItsAlive`, and no two expiries in a row have come since. */
  ghost predicate ConnectedSince(es: seq<Event>, i: nat) {
    i <= |es| && StateByTail(es[..i]) == ItsAlive && NoDouble(es, i)
  }

  lemma {:induction false} StatusIsOneField(es: seq<Event>)
    ensures After(es).oldStatus == After(es).status
    ensures After(es).state == ItsAlive ==> After(es).status == Connected
    ensures After(es).state == DeadServer ==> After(es).status == Disconnected
  {
    if es != [] {
      StatusIsOneField(es[..|es| - 1]);
    }
  }

  lemma TailIsDouble(es: seq<Event>)
    ensures StateByTail(es) == DeadServer <==> |es| >= 2 && es[|es| - 2] == Timeout && es[|es| - 1] == Timeout
    ensures StateByTail(es) == ItsAlive ==> es != [] && es[|es| - 1] == Beat
  {
    TrailingBound(es, Timeout);
    if |es| >= 2 {
      assert es[..|es| - 1][|es| - 2] == es[|es| - 2];
    }
  }

  lemma SinceShrinks(es: seq<Event>, i: nat)
    requires i < |es| && ConnectedSince(es, i)
    ensures ConnectedSince(es[..|es| - 1], i)
    ensures StateByTail(es) != DeadServer
  {
    assert es[..|es| - 1][..i] == es[..i];
    TailIsDouble(es);
    TailIsDouble(es[..i]);
  }

  lemma SinceGrows(es: seq<Event>, i: nat)
    requires i < |es| && ConnectedSince(es[..|es| - 1], i) && StateByTail(es) != DeadServer
    ensures ConnectedSince(es, i)
  {
    var n := |es| - 1;
    assert es[..n][..i] == es[..i];
    TailIsDouble(es);
    forall j | i <= j < n ensures !(es[j] == Timeout && es[j + 1] == Timeout) {
      assert es[j] == es[..n][j];
      if j + 1 < n {
        assert es[j + 1] == es[..n][j + 1];
      }
    }
  }

  /** The server counts as connected exactly if the machine has been in `ItsAlive` and no two expiries in
      a row have come since. */
  lemma {:induction false} ConnectedMeansAliveSince(es: seq<Event>)
    ensures After(es).status == Connected <==> exists i: nat :: ConnectedSince(es, i)
  {
    StateFollowsTheTail(es);
    StatusIsOneField(es);
    if es == [] {
      forall i: nat ensures !ConnectedSince(es, i) {
        if i == 0 { assert es[..i] == []; }
      }
    } else {
      var n := |es| - 1;
      var before := es[..n];
      ConnectedMeansAliveSince(before);
      assert es[..|es|] == es;
      if After(es).state == ItsAlive {
        assert ConnectedSince(es, |es|);
      } else {
        StatusKeptUnlessDead(es);
        forall i: nat | ConnectedSince(es, i) ensures After(es).state != DeadServer && ConnectedSince(before, i) {
          SinceShrinks(es, i);
        }
        if After(es).state != DeadServer && After(before).status == Connected {
          var i: nat :| ConnectedSince(before, i);
          SinceGrows(es, i);
        }
      }
    }
  }

  lemma StatusKeptUnlessDead(es: seq<Event>)
    requires es != [] && After(es).state != ItsAlive
    ensures After(es).status == if After(es).state == DeadServer then Disconnected else After(es[..|es| - 1]).status
  {
    StatusIsOneField(es);
  }

  // --- notices ------------------------------------------------------------------------------------------------

  /** Step `i` announces exactly the change of status it makes. */
  lemma NoticesAreChangePoints(es: seq<Event>, i: nat)
    requires i < |es|
    ensures NoticesAt(After(es[..i]), es[i]) == Change(After(es[..i]).status, After(es[..i + 1]).status)
  {
    assert es[..i + 1][..i] == es[..i];
    StatusIsOneField(es[..i]);
    NoticesOfStep(After(es[..i]), es[i]);
    hide NoticesAt, Next, Change;
  }

  lemma NoticesOfStep(f: Fsm, e: Event)
    requires f.oldStatus == f.status
    ensures NoticesAt(f, e) == Change(f.status, Next(f, e).status)
  {
    var acts := ActionsOf(f, e);
    var next := Next(f, e);
    assert acts == match (f.state, e)
                   case (StartingWait, Beat) => [SendStatusConditional(f.status, Connected), Halt, OnEntry(ItsAlive)]
                   case (ItsAlive, Beat) => [Halt, OnEntry(StartingWait)]
                   case (NotHeartbeatYet, Beat) => [Halt, OnEntry(StartingWait)]
                   case (DeadServer, Beat) => [OnEntry(StartingWait)]
                   case (NotHeartbeatYet, Timeout) => [SendStatusConditional(f.status, Disconnected), OnEntry(DeadServer)]
                   case (DeadServer, Timeout) => []
                   case (_, Timeout) => [OnEntry(NotHeartbeatYet)];
    assert next.status == if acts != [] && acts[0].SendStatusConditional? then acts[0].newStatus else f.status;
    hide ActionsOf, Next;
    GatherShort(NoticesOf, acts);
    hide Gather;
  }

  /** A disconnection is announced exactly when a second expiry in a row meets a connected server; a
      connection exactly when a heartbeat meets a disconnected one in `StartingWait`. */
  lemma WhenNoticesAreSent(es: seq<Event>, i: nat)
    requires i < |es|
    ensures ServerDisconnected in NoticesAt(After(es[..i]), es[i]) <==>
              i >= 1 && es[i - 1] == Timeout && es[i] == Timeout && After(es[..i]).status == Connected
    ensures ServerConnected in NoticesAt(After(es[..i]), es[i]) <==>
              es[i] == Beat && StateByTail(es[..i]) == StartingWait && After(es[..i]).status == Disconnected
  {
    NoticesAreChangePoints(es, i);
    assert es[..i + 1][..i] == es[..i];
    StateFollowsTheTail(es[..i]);
    StateFollowsTheTail(es[..i + 1]);
    StatusIsOneField(es[..i]);
    StatusIsOneField(es[..i + 1]);
  }

  /** The notices alternate, starting with a connection, and the last one is the present status. */
  predicate Alternate(ns: seq<InternalEvent>, now: Status) {
    && (forall j :: 0 <= j < |ns| ==> ns[j] == if j % 2 == 0 then ServerConnected else ServerDisconnected)
    && (now == Connected <==> |ns| % 2 == 1)
  }

  /** What a change of status announces. */
  function Change(before: Status, after: Status): seq<InternalEvent> {
    if before == after then [] else if after == Connected then [ServerConnected] else [ServerDisconnected]
  }

  lemma AlternateStep(ns: seq<InternalEvent>, before: Status, after: Status)
    requires Alternate(ns, before)
    ensures Alternate(ns + Change(before, after), after)
  {
  }

  lemma NoticesStep(es: seq<Event>)
    requires es != []
    ensures Notices(es) == Notices(es[..|es| - 1]) + Change(After(es[..|es| - 1]).status, After(es).status)
  {
    NoticesAreChangePoints(es, |es| - 1);
    assert es[..|es|] == es;
    hide NoticesAt, After;
  }

  lemma {:induction false} NoticesAlternate(es: seq<Event>)
    ensures Alternate(Notices(es), After(es).status)
  {
    if es == [] {
    } else {
      var before := es[..|es| - 1];
      NoticesAlternate(before);
      NoticesStep(es);
      AlternateStep(Notices(before), After(before).status, After(es).status);
      hide Alternate, Change, Notices, After;
    }
  }

  // --- the drain trigger ------------------------------------------------------------------------------------------

  datatype Trigger = Trigger(state: Status, oldState: Status)

  const NEW_TRIGGER := Trigger(Disconnected, Disconnected)

  class GetTask {
    var state: Status
    var oldState: Status

    function View(): Trigger
      reads this
    {
      Trigger(state, oldState)
    }

    constructor ()
      ensures View() == NEW_TRIGGER
    {
      state, oldState := Disconnected, Disconnected;
    }

    /** The internal-event arm of `dba_get_task`; `drain` says that `get_all_tables` is called. */
    method OnInternal(e: InternalEvent) returns (drain: bool)
      modifies this
      ensures View() == Triggered(old(View()), e).0 && drain == Triggered(old(View()), e).1
    {
      drain := false;
      match e {
        case ServerConnected => state := Connected;
        case ServerDisconnected =>
          state := Disconnected;
          oldState := Disconnected;
        case OtherEvent =>
      }
      if state == Connected && oldState == Disconnected {
        oldState := state;
        drain := true;
      }
    }
  }

  function Triggered(t: Trigger, e: InternalEvent): (Trigger, bool) {
    var t1 := match e
      case ServerConnected => t.(state := Connected)
      case ServerDisconnected => NEW_TRIGGER
      case OtherEvent => t;
    if t1.state == Connected && t1.oldState == Disconnected then (t1.(oldState := Connected), true) else (t1, false)
  }

  function TriggerAfter(ns: seq<InternalEvent>): Trigger {
    if ns == [] then NEW_TRIGGER else Triggered(TriggerAfter(ns[..|ns| - 1]), ns[|ns| - 1]).0
  }

  /** Whether event `i` starts a drain. */
  predicate DrainsAt(ns: seq<InternalEvent>, i: nat)
    requires i < |ns|
  {
    Triggered(TriggerAfter(ns[..i]), ns[i]).1
  }

  /** The latest connectivity notice, ignoring other events. */
  function Latest(ns: seq<InternalEvent>): InternalEvent {
    if ns == [] then ServerDisconnected
    else if ns[|ns| - 1] == OtherEvent then Latest(ns[..|ns| - 1])
    else ns[|ns| - 1]
  }

  lemma {:induction false} TriggerRemembersLatest(ns: seq<InternalEvent>)
    ensures TriggerAfter(ns) == if Latest(ns) == ServerConnected then Trigger(Connected, Connected) else NEW_TRIGGER
    ensures Latest(ns) != OtherEvent
  {
    if ns != [] {
      TriggerRemembersLatest(ns[..|ns| - 1]);
    }
  }

  /** For any stream of events: a drain starts exactly at a connection that follows no other connection
      since the last disconnection. */
  lemma DrainOnRisingEdge(ns: seq<InternalEvent>, i: nat)
    requires i < |ns|
    ensures DrainsAt(ns, i) <==> ns[i] == ServerConnected && Latest(ns[..i]) == ServerDisconnected
  {
    TriggerRemembersLatest(ns[..i]);
  }

  /** Fed with the heartbeat's notices, every connection starts exactly one drain and nothing else does. */
  lemma OneDrainPerConnection(es: seq<Event>, i: nat)
    requires i < |Notices(es)|
    ensures DrainsAt(Notices(es), i) <==> Notices(es)[i] == ServerConnected
  {
    NoticesAlternate(es);
    AlternatingEdges(Notices(es), After(es).status, i);
    hide *;
  }

  lemma AlternatingEdges(ns: seq<InternalEvent>, now: Status, i: nat)
    requires Alternate(ns, now) && i < |ns|
    ensures DrainsAt(ns, i) <==> ns[i] == ServerConnected
  {
    DrainOnRisingEdge(ns, i);
    if i > 0 {
      assert ns[..i][i - 1] == ns[i - 1];
    }
    hide DrainsAt;
  }

  // --- the watchdog, run to completion -------------------------------------------------------------------------------

  /** The watchdog after a history in which every expiry is its own and all commands have arrived. */
  function TimerAfter(es: seq<Event>): Timer<State> {
    if es == [] then Idle
    else
      var n := |es| - 1;
      var t := if es[n] == Timeout then Idle else TimerAfter(es[..n]);
      Feed(t, CommandsAt(After(es[..n]), es[n]))
  }

  /** Histories in which `Timeout` happens only while the watchdog is armed. */
  predicate Feasible(es: seq<Event>) {
    es == [] || (Feasible(es[..|es| - 1]) && (es[|es| - 1] == Timeout ==> TimerAfter(es[..|es| - 1]).Armed?))
  }

  predicate NeverThreeTimeouts(es: seq<Event>) {
    forall i :: 0 <= i < |es| - 2 ==> !(es[i] == Timeout && es[i + 1] == Timeout && es[i + 2] == Timeout)
  }

  lemma CommandsByState(f: Fsm, e: Event)
    ensures CommandsAt(f, e) == match (f.state, e)
                                case (StartingWait, Beat) => [StopTimer, InitTimer(ItsAlive)]
                                case (StartingWait, Timeout) => [InitTimer(NotHeartbeatYet)]
                                case (ItsAlive, Beat) => [StopTimer, InitTimer(StartingWait)]
                                case (ItsAlive, Timeout) => [InitTimer(NotHeartbeatYet)]
                                case (NotHeartbeatYet, Beat) => [StopTimer, InitTimer(StartingWait)]
                                case (NotHeartbeatYet, Timeout) => []
                                case (DeadServer, Beat) => [InitTimer(StartingWait)]
                                case (DeadServer, Timeout) => []
  {
    GatherShort(CommandsOf, ActionsOf(f, e));
  }

  /** The watchdog is armed, for the present state, unless nothing has happened yet or the server is dead. */
  lemma {:induction false} TimerFollowsState(es: seq<Event>)
    requires Feasible(es)
    ensures TimerAfter(es) == if es == [] || After(es).state == DeadServer then Idle else Armed(After(es).state)
  {
    if es != [] {
      var n := |es| - 1;
      TimerFollowsState(es[..n]);
      CommandsByState(After(es[..n]), es[n]);
      StatusIsOneField(es[..n]);
      var t := if es[n] == Timeout then Idle else TimerAfter(es[..n]);
      OneOrTwoCommands(t, StopTimer, InitTimer(After(es).state));
      OneOrTwoCommands(t, InitTimer(After(es).state), StopTimer);
    }
  }

  /** No `InitTimer` ever meets a running watchdog, and the machine never meets an event it rejects. */
  lemma EveryStepIsClean(es: seq<Event>, e: Event)
    requires Feasible(es + [e])
    ensures Step(After(es), e).Valid?
    ensures Clean(if e == Timeout then Idle else TimerAfter(es), CommandsAt(After(es), e))
  {
    assert (es + [e])[..|es|] == es;
    TimerFollowsState(es);
    StateFollowsTheTail(es);
    CommandsByState(After(es), e);
    var t := if e == Timeout then Idle else TimerAfter(es);
    var s := After(es + [e]).state;
    OneOrTwoCommands(t, StopTimer, InitTimer(s));
    OneOrTwoCommands(t, InitTimer(s), StopTimer);
  }

  lemma FeasibleStep(es: seq<Event>)
    requires es != []
    ensures var before := es[..|es| - 1];
            Feasible(es) <==>
              Feasible(before) && (es[|es| - 1] == Timeout ==> before != [] && StateByTail(before) != DeadServer)
  {
    var before := es[..|es| - 1];
    StateFollowsTheTail(before);
    if Feasible(before) {
      TimerFollowsState(before);
    }
    hide After, TimerAfter, StateByTail;
  }

  lemma NoThreeStep(es: seq<Event>)
    requires es != []
    ensures var before := es[..|es| - 1];
            NeverThreeTimeouts(es) <==>
              NeverThreeTimeouts(before) && (es[|es| - 1] == Timeout ==> StateByTail(before) != DeadServer)
  {
    var n := |es| - 1;
    var before := es[..n];
    TailIsDouble(before);
    hide StateByTail;
    if NeverThreeTimeouts(before) && (es[n] == Timeout ==> StateByTail(before) != DeadServer) {
      forall i | 0 <= i < |es| - 2 ensures !(es[i] == Timeout && es[i + 1] == Timeout && es[i + 2] == Timeout) {
        assert es[i] == before[i] && es[i + 1] == before[i + 1];
        assert i + 2 < n ==> es[i + 2] == before[i + 2];
      }
    }
    if NeverThreeTimeouts(es) {
      forall i | 0 <= i < |before| - 2 ensures !(before[i] == Timeout && before[i + 1] == Timeout && before[i + 2] == Timeout) {
        assert before[i] == es[i];
      }
    }
  }

  /** Which histories the watchdog allows: none starts with an expiry or holds three in a row. */
  lemma {:induction false} FeasibleMeans(es: seq<Event>)
    ensures Feasible(es) <==> (es == [] || es[0] == Beat) && NeverThreeTimeouts(es)
  {
    if es != [] {
      FeasibleMeans(es[..|es| - 1]);
      FeasibleStep(es);
      NoThreeStep(es);
      hide Feasible, NeverThreeTimeouts, StateByTail;
    }
  }

  /** The expiries `more` are announced as exactly one disconnection and leave the watchdog idle. */
  ghost predicate NoticedOnce(es: seq<Event>, more: seq<Event>) {
    && Feasible(es + more)
    && After(es + more).status == Disconnected
    && Notices(es + more) == Notices(es) + [ServerDisconnected]
    && TimerAfter(es + more) == Idle
  }

  lemma SecondExpiry(es: seq<Event>)
    requires Feasible(es) && After(es).status == Connected && After(es).state == NotHeartbeatYet
    ensures NoticedOnce(es, [Timeout])
  {
    StatusIsOneField(es);
    OneMore(es, Timeout);
    hide Feasible, After, Notices, TimerAfter;
  }

  /** The first of two expiries only warns. */
  lemma FirstExpiry(es: seq<Event>)
    requires Feasible(es) && After(es).status == Connected && After(es).state != NotHeartbeatYet
    ensures Feasible(es + [Timeout]) && After(es + [Timeout]) == After(es).(state := NotHeartbeatYet)
    ensures Notices(es + [Timeout]) == Notices(es)
  {
    StatusIsOneField(es);
    assert es != [];
    assert Next(After(es), Timeout) == After(es).(state := NotHeartbeatYet);
    hide Feasible, After, Notices, TimerAfter;
    OneMore(es, Timeout);
  }

  lemma TwoExpiries(es: seq<Event>)
    requires NoticedOnce(es + [Timeout], [Timeout]) && Notices(es + [Timeout]) == Notices(es)
    ensures NoticedOnce(es, [Timeout, Timeout])
  {
    hide Feasible, After, Notices, TimerAfter;
    assert es + [Timeout, Timeout] == es + [Timeout] + [Timeout];
  }

  /** From any history after which the server counts as connected, silence is noticed after at most two
      expiries. */
  lemma SilenceIsNoticed(es: seq<Event>)
    requires Feasible(es) && After(es).status == Connected
    ensures NoticedOnce(es, if After(es).state == NotHeartbeatYet then [Timeout] else [Timeout, Timeout])
  {
    hide *;
    if After(es).state == NotHeartbeatYet {
      SecondExpiry(es);
    } else {
      FirstExpiry(es);
      SecondExpiry(es + [Timeout]);
      TwoExpiries(es);
    }
  }

  lemma OneMore(es: seq<Event>, e: Event)
    requires Feasible(es) && es != [] && (e == Timeout ==> After(es).state != DeadServer)
    ensures Feasible(es + [e])
    ensures After(es + [e]) == Next(After(es), e)
    ensures Notices(es + [e]) == Notices(es) + Change(After(es).status, After(es + [e]).status)
    ensures TimerAfter(es + [e]) == if After(es + [e]).state == DeadServer then Idle else Armed(After(es + [e]).state)
  {
    assert (es + [e])[..|es|] == es;
    TimerFollowsState(es);
    assert Feasible(es + [e]);
    TimerFollowsState(es + [e]);
    NoticesStep(es + [e]);
    assert After(es + [e]) == Next(After(es), e);
    hide *;
  }

  /** After the first heartbeat a dead server is awaited again, silently. */
  lemma FirstBeat(es: seq<Event>)
    requires Feasible(es) && After(es).state == DeadServer
    ensures Feasible(es + [Beat]) && After(es + [Beat]) == Fsm(StartingWait, Disconnected, Disconnected)
    ensures Notices(es + [Beat]) == Notices(es)
  {
    StatusIsOneField(es);
    assert es != [];
    assert Next(After(es), Beat) == Fsm(StartingWait, Disconnected, Disconnected);
    hide Feasible, After, Notices, TimerAfter;
    OneMore(es, Beat);
  }

  lemma SecondBeat(es: seq<Event>)
    requires Feasible(es) && es != [] && After(es) == Fsm(StartingWait, Disconnected, Disconnected)
    ensures After(es + [Beat]).status == Connected && Notices(es + [Beat]) == Notices(es) + [ServerConnected]
  {
    assert Next(After(es), Beat).status == Connected;
    hide Feasible, After, Notices, TimerAfter;
    OneMore(es, Beat);
  }

  /** A dead server is connected again by two heartbeats, not by one. */
  lemma TwoBeatsRevive(es: seq<Event>)
    requires Feasible(es) && After(es).state == DeadServer
    ensures After(es + [Beat]).status == Disconnected && Notices(es + [Beat]) == Notices(es)
    ensures After(es + [Beat, Beat]).status == Connected && Notices(es + [Beat, Beat]) == Notices(es) + [ServerConnected]
  {
    hide *;
    FirstBeat(es);
    SecondBeat(es + [Beat]);
    assert es + [Beat, Beat] == es + [Beat] + [Beat];
  }
}
