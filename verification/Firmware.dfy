/** The OTA firmware sequencer (src/firmware/logic.rs:34-228 and 298-327) and its watchdog
    (src/firmware/domain.rs:180-221): hubs of a network are asked to update one at a time. */
module Firmware {
  import opened Common
  import opened Watchdog

  datatype HubFirmwareStatus = HubFirmwareStatus(id: string, isUpdated: bool, success: bool)

  datatype Event =
    | Update(net: string, release: Option<string>, hubs: seq<string>)  // release: the fetched version, if any
    | HubResponse(sender: string, isUpdated: bool, success: bool)
    | Expiry
    | OtherCommand

  /** A percentage in floating point: 0/0 is not a number. */
  datatype Float = Number(value: real) | NaN

  datatype Output =
    | UpdateRequest(hub: string, net: string, version: string)
    | Outcome(net: string, percentage: Float)
    | OutcomeError(net: string)

  datatype Task = Task(
    working: bool,
    vector: seq<HubFirmwareStatus>,
    index: nat,
    version: string,
    network: string,
    sent: seq<Output>,
    toTimer: seq<TimerCmd<string>>)

  const NEW_TASK := Task(false, [], 0, "", "", [], [StopTimer])

  /** Hubs that are on the new version, whether they had it already or took it now. */
  function Good(vector: seq<HubFirmwareStatus>): nat {
    if vector == [] then 0
    else Good(vector[..|vector| - 1]) + (var h := vector[|vector| - 1]; if h.isUpdated || h.success then 1 else 0)
  }

  function Percentage(good: nat, total: nat): Float {
    if total == 0 then NaN else Number(good as real / total as real * 100.0)
  }

  function Fresh(hubs: seq<string>): seq<HubFirmwareStatus> {
    seq(|hubs|, i requires 0 <= i < |hubs| => HubFirmwareStatus(hubs[i], false, false))
  }

  /** Ask the hub at `index` and start the watchdog for it. */
  function Ask(t: Task): Task
    requires t.index < |t.vector|
  {
    var hub := t.vector[t.index].id;
    t.(sent := t.sent + [UpdateRequest(hub, t.network, t.version)], toTimer := t.toTimer + [InitTimer(hub)])
  }

  /** Close the hub at `index`, then ask the next one or report. */
  function Resolve(t: Task, isUpdated: bool, success: bool): Task
    requires t.index < |t.vector|
  {
    var vector := t.vector[t.index := HubFirmwareStatus(t.vector[t.index].id, isUpdated, success)];
    var t1 := t.(vector := vector, index := t.index + 1, toTimer := t.toTimer + [StopTimer]);
    if t1.index < |vector| then Ask(t1)
    else t1.(working := false, sent := t1.sent + [Outcome(t.network, Percentage(Good(vector), |vector|))])
  }

  function Start(t: Task, net: string, release: Option<string>, hubs: seq<string>): Task {
    match release
    case None => t.(working := false, vector := [], index := 0, sent := t.sent + [OutcomeError(t.network)])
    case Some(v) =>
      var t1 := t.(version := v, network := net, vector := Fresh(hubs), index := 0);
      if hubs == [] then t1.(working := false, sent := t1.sent + [OutcomeError(net)])
      else Ask(t1.(working := true))
  }

  /** `None` is the out-of-range access `process_vector[index]` of the timeout arm: the task panics. */
  function Handle(t: Task, e: Event): Option<Task> {
    match e
    case Update(net, release, hubs) => Some(Start(t, net, release, hubs))
    case HubResponse(sender, u, s) =>
      Some(if t.working && t.index < |t.vector| && t.vector[t.index].id == sender then Resolve(t, u, s) else t)
    case Expiry => if t.index < |t.vector| then Some(Resolve(t, false, false)) else None
    case OtherCommand => Some(t)
  }

  // --- what the percentage says ----------------------------------------------------------------------------

  ghost function GoodOnes(vector: seq<HubFirmwareStatus>): set<nat> {
    set i: nat | i < |vector| && (vector[i].isUpdated || vector[i].success)
  }

  lemma GoodOnesGrow(vector: seq<HubFirmwareStatus>)
    requires vector != []
    ensures var n := |vector| - 1;
            |GoodOnes(vector)| == |GoodOnes(vector[..n])| + if vector[n].isUpdated || vector[n].success then 1 else 0
  {
    var n := |vector| - 1;
    assert forall i: nat :: i < n ==> vector[..n][i] == vector[i];
    assert GoodOnes(vector) == GoodOnes(vector[..n]) + if vector[n].isUpdated || vector[n].success then {n} else {};
  }

  lemma {:induction false} GoodIsCounted(vector: seq<HubFirmwareStatus>)
    ensures Good(vector) == |GoodOnes(vector)| <= |vector|
  {
    if vector == [] {
      assert GoodOnes(vector) == {};
    } else {
      hide GoodOnes;
      GoodIsCounted(vector[..|vector| - 1]);
      GoodOnesGrow(vector);
    }
  }

  /** `p` is the share of `good` in `total`, in percent. */
  predicate IsShare(p: Float, good: nat, total: nat) {
    if total == 0 then p.NaN?
    else
      && p.Number? && p.value * total as real == 100.0 * good as real
      && 0.0 <= p.value <= 100.0
      && (p.value == 100.0 <==> good == total) && (p.value == 0.0 <==> good == 0)
  }

  lemma PercentageIsShare(good: nat, total: nat)
    requires good <= total
    ensures IsShare(Percentage(good, total), good, total)
  {
    if total > 0 {
      var g, n := good as real, total as real;
      var q := g / n;
      assert q * n == g;
      assert q * 100.0 * n == 100.0 * g;
      RatioBounds(q, g, n);
    }
  }

  lemma RatioBounds(q: real, g: real, n: real)
    requires n > 0.0 && 0.0 <= g <= n && q * n == g
    ensures 0.0 <= q <= 1.0 && (q == 1.0 <==> g == n) && (q == 0.0 <==> g == 0.0)
  {
    TimesKeepsOrder(q, 0.0, n);
    TimesKeepsOrder(0.0, q, n);
    TimesKeepsOrder(q, 1.0, n);
    TimesKeepsOrder(1.0, q, n);
  }

  lemma TimesKeepsOrder(a: real, b: real, n: real)
    requires n > 0.0
    ensures a < b <==> a * n < b * n
  {
    assert b * n - a * n == (b - a) * n;
  }

  // --- the task in place ---------------------------------------------------------------------------------

  /** The hubs updated or successful, in percent of all. */
  method GenerateOutcome(vector: seq<HubFirmwareStatus>, network: string) returns (o: Output)
    ensures o == Outcome(network, Percentage(Good(vector), |vector|))
    ensures IsShare(o.percentage, |GoodOnes(vector)|, |vector|)
  {
    GoodIsCounted(vector);
    PercentageIsShare(Good(vector), |vector|);
    hide IsShare, Percentage, GoodOnes;
    var counter := 0;
    for i := 0 to |vector|
      invariant counter == Good(vector[..i])
    {
      assert vector[..i + 1][..i] == vector[..i];
      var status := vector[i];
      if status.isUpdated || status.success {
        counter := counter + 1;
      }
    }
    assert vector[..|vector|] == vector;
    o := Outcome(network, Percentage(counter, |vector|));
  }

  class UpdateFirmwareTask {
    var working: bool
    var processVector: seq<HubFirmwareStatus>
    var index: nat
    var version: string
    var network: string
    var sent: seq<Output>
    var toTimer: seq<TimerCmd<string>>

    function View(): Task
      reads this
    {
      Task(working, processVector, index, version, network, sent, toTimer)
    }

    constructor ()
      ensures View() == NEW_TASK
    {
      working, processVector, index, version, network := false, [], 0, "", "";
      sent, toTimer := [], [StopTimer];
    }

    method AskCurrent()
      requires index < |processVector|
      modifies this
      ensures View() == Ask(old(View()))
    {
      var hub := processVector[index].id;
      sent := sent + [UpdateRequest(hub, network, version)];
      toTimer := toTimer + [InitTimer(hub)];
    }

    method OnUpdate(net: string, release: Option<string>, hubs: seq<string>)
      modifies this
      ensures View() == Start(old(View()), net, release, hubs)
    {
      working := true;
      processVector := [];
      index := 0;
      match release {
        case Some(v) =>
          version := v;
          network := net;
          if hubs == [] {
            working := false;
            sent := sent + [OutcomeError(network)];
          } else {
            for i := 0 to |hubs|
              invariant processVector == Fresh(hubs[..i])
              invariant View() == old(View()).(working := true, vector := processVector, index := 0, version := v, network := net)
            {
              processVector := processVector + [HubFirmwareStatus(hubs[i], false, false)];
            }
            assert hubs[..|hubs|] == hubs;
            AskCurrent();
          }
        case None =>
          working := false;
          sent := sent + [OutcomeError(network)];
      }
    }

    method OnHubResponse(sender: string, isUpdated: bool, success: bool)
      modifies this
      ensures Some(View()) == Handle(old(View()), HubResponse(sender, isUpdated, success))
    {
      if working {
        if index < |processVector| {
          if sender == processVector[index].id {
            CloseCurrent(isUpdated, success);
          }
        }
      }
    }

    /** Out of range, the task panics after telling the watchdog to stop. */
    method OnTimeout() returns (panics: bool)
      modifies this
      ensures panics <==> Handle(old(View()), Expiry) == None
      ensures !panics ==> Some(View()) == Handle(old(View()), Expiry)
      ensures panics ==> View() == old(View()).(toTimer := old(toTimer) + [StopTimer])
    {
      panics := index >= |processVector|;
      if panics {
        toTimer := toTimer + [StopTimer];
      } else {
        CloseCurrent(false, false);
      }
    }

    method CloseCurrent(isUpdated: bool, success: bool)
      requires index < |processVector|
      modifies this
      ensures View() == Resolve(old(View()), isUpdated, success)
    {
      toTimer := toTimer + [StopTimer];
      processVector := processVector[index := processVector[index].(isUpdated := isUpdated, success := success)];
      index := index + 1;
      if index < |processVector| {
        AskCurrent();
      } else {
        working := false;
        var msg := GenerateOutcome(processVector, network);
        sent := sent + [msg];
      }
    }
  }

  // --- when the task survives ---------------------------------------------------------------------------------

  function RunTask(t: Task, es: seq<Event>): Option<Task>
    decreases |es|
  {
    if es == [] then Some(t)
    else
      match Handle(t, es[0])
      case None => None
      case Some(t1) => RunTask(t1, es[1..])
  }

  ghost predicate IndexInStep(t: Task) { t.index <= |t.vector| && (t.working <==> t.index < |t.vector|) }

  lemma HandleKeepsIndex(t: Task, e: Event)
    requires IndexInStep(t)
    ensures Handle(t, e) == None <==> e == Expiry && !t.working
    ensures Handle(t, e) != None ==> IndexInStep(Handle(t, e).value)
  {
  }

  /** Whatever the order of commands, responses and expiries: the task stays in range as long as no
      expiry is handled while it sleeps, and panics at the first one that is. */
  lemma {:induction false} PanicIffExpiryWhileSleeping(t: Task, es: seq<Event>)
    requires IndexInStep(t)
    ensures RunTask(t, es) == None <==>
              exists i :: 0 <= i < |es| && es[i] == Expiry && RunTask(t, es[..i]).Some? && !RunTask(t, es[..i]).value.working
    ensures RunTask(t, es).Some? ==> IndexInStep(RunTask(t, es).value)
    decreases |es|
  {
    if es != [] {
      HandleKeepsIndex(t, es[0]);
      assert es[..0] == [];
      if Handle(t, es[0]).Some? {
        var t1 := Handle(t, es[0]).value;
        PanicIffExpiryWhileSleeping(t1, es[1..]);
        forall i | 0 < i < |es| ensures RunTask(t, es[..i]) == RunTask(t1, es[1..][..i - 1]) && es[1..][i - 1] == es[i] {
          assert es[..i][0] == es[0] && es[..i][1..] == es[1..][..i - 1];
        }
        if RunTask(t1, es[1..]) == None {
          var j :| 0 <= j < |es[1..]| && es[1..][j] == Expiry && RunTask(t1, es[1..][..j]).Some? && !RunTask(t1, es[1..][..j]).value.working;
          assert es[j + 1] == Expiry && RunTask(t, es[..j + 1]) == RunTask(t1, es[1..][..j]);
        }
      }
    }
  }

  // --- one session ------------------------------------------------------------------------------------------------

  /** The verdict on each hub resolved so far, in list order. The event that resolves a hub is the first
      one, after its predecessor was resolved, that is an expiry or a response from it. */
  function Verdicts(hubs: seq<string>, es: seq<Event>): (vs: seq<bool>)
    ensures |vs| <= |hubs|
  {
    if es == [] then []
    else
      var vs := Verdicts(hubs, es[..|es| - 1]);
      if |vs| == |hubs| then vs
      else
        match es[|es| - 1]
        case Expiry => vs + [false]
        case HubResponse(sender, u, s) => if sender == hubs[|vs|] then vs + [u || s] else vs
        case _ => vs
  }

  function CountTrue(vs: seq<bool>): nat {
    if vs == [] then 0 else CountTrue(vs[..|vs| - 1]) + if vs[|vs| - 1] then 1 else 0
  }

  function Requests(hubs: seq<string>, net: string, version: string): seq<Output> {
    seq(|hubs|, i requires 0 <= i < |hubs| => UpdateRequest(hubs[i], net, version))
  }

  /** What a session has sent once `vs` are decided: a request to every resolved hub and to the next one,
      and the outcome when there is no next one. */
  function SessionOutput(hubs: seq<string>, net: string, version: string, vs: seq<bool>): seq<Output>
    requires |vs| <= |hubs| && hubs != []
  {
    if |vs| < |hubs| then Requests(hubs[..|vs| + 1], net, version)
    else Requests(hubs, net, version) + [Outcome(net, Percentage(CountTrue(vs), |hubs|))]
  }

  ghost predicate InSession(t: Task, before: seq<Output>, hubs: seq<string>, net: string, version: string, vs: seq<bool>) {
    && hubs != [] && |vs| <= |hubs| == |t.vector| && t.index == |vs| && t.working == (|vs| < |hubs|)
    && t.network == net && t.version == version
    && (forall i :: 0 <= i < |hubs| ==> t.vector[i].id == hubs[i])
    && (forall i :: 0 <= i < |vs| ==> vs[i] == (t.vector[i].isUpdated || t.vector[i].success))
    && t.sent == before + SessionOutput(hubs, net, version, vs)
  }

  lemma {:induction false} GoodCounts(vector: seq<HubFirmwareStatus>, vs: seq<bool>)
    requires |vector| == |vs|
    requires forall i :: 0 <= i < |vs| ==> vs[i] == (vector[i].isUpdated || vector[i].success)
    ensures Good(vector) == CountTrue(vs)
  {
    if vs != [] {
      GoodCounts(vector[..|vs| - 1], vs[..|vs| - 1]);
    }
  }

  lemma RequestsGrow(hubs: seq<string>, k: nat, net: string, version: string)
    requires k < |hubs|
    ensures Requests(hubs[..k + 1], net, version) == Requests(hubs[..k], net, version) + [UpdateRequest(hubs[k], net, version)]
  {
  }

  lemma OutputGrows(hubs: seq<string>, net: string, version: string, vs: seq<bool>, v: bool)
    requires |vs| < |hubs|
    ensures SessionOutput(hubs, net, version, vs + [v]) == SessionOutput(hubs, net, version, vs) +
              if |vs| + 1 < |hubs| then [UpdateRequest(hubs[|vs| + 1], net, version)]
              else [Outcome(net, Percentage(CountTrue(vs + [v]), |hubs|))]
  {
    hide Requests, CountTrue, Percentage;
    var vs1 := vs + [v];
    assert |vs1| == |vs| + 1;
    if |vs1| < |hubs| {
      RequestsGrow(hubs, |vs1|, net, version);
    } else {
      assert hubs[..|vs1|] == hubs;
    }
  }

  lemma ResolveAdvances(t: Task, before: seq<Output>, hubs: seq<string>, net: string, version: string, vs: seq<bool>, u: bool, s: bool)
    requires InSession(t, before, hubs, net, version, vs) && t.working
    ensures InSession(Resolve(t, u, s), before, hubs, net, version, vs + [u || s])
  {
    var t1 := Resolve(t, u, s);
    var vs1 := vs + [u || s];
    OutputGrows(hubs, net, version, vs, u || s);
    if |vs1| == |hubs| {
      GoodCounts(t1.vector, vs1);
    }
    assert t1.sent == t.sent + if |vs1| < |hubs| then [UpdateRequest(hubs[|vs1|], net, version)]
                               else [Outcome(net, Percentage(CountTrue(vs1), |hubs|))];
    hide SessionOutput, Requests, CountTrue, Percentage, Good, Resolve, Ask;
  }

  lemma StartOpens(t: Task, net: string, version: string, hubs: seq<string>)
    requires hubs != []
    ensures InSession(Start(t, net, Some(version), hubs), t.sent, hubs, net, version, [])
  {
  }

  lemma {:induction false} RunTaskLast(t: Task, es: seq<Event>)
    requires es != []
    ensures RunTask(t, es) == match RunTask(t, es[..|es| - 1]) case None => None case Some(t1) => Handle(t1, es[|es| - 1])
    decreases |es|
  {
    var n := |es| - 1;
    if n > 0 && Handle(t, es[0]).Some? {
      RunTaskLast(Handle(t, es[0]).value, es[1..]);
      assert es[1..][..n - 1] == es[..n][1..];
    }
  }

  ghost function TrueOnes(vs: seq<bool>): set<nat> { set i: nat | i < |vs| && vs[i] }

  lemma {:induction false} TrueIsCounted(vs: seq<bool>)
    ensures CountTrue(vs) == |TrueOnes(vs)| <= |vs|
  {
    if vs == [] {
      assert TrueOnes(vs) == {};
    } else {
      var n := |vs| - 1;
      TrueIsCounted(vs[..n]);
      assert forall i: nat :: i < n ==> vs[..n][i] == vs[i];
      assert TrueOnes(vs) == TrueOnes(vs[..n]) + if vs[n] then {n} else {};
    }
  }

  /** Once every hub has its verdict, the last thing sent is the outcome: the share of the good verdicts. */
  lemma SessionOutcome(t: Task, net: string, version: string, hubs: seq<string>, es: seq<Event>)
    requires hubs != [] && (forall e :: e in es ==> !e.Update?) && |Verdicts(hubs, es)| == |hubs|
    requires RunTask(Start(t, net, Some(version), hubs), es).Some?
    ensures var sent := RunTask(Start(t, net, Some(version), hubs), es).value.sent;
            && |sent| == |t.sent| + |hubs| + 1 && t.sent <= sent
            && (forall i :: 0 <= i < |hubs| ==> sent[|t.sent| + i] == UpdateRequest(hubs[i], net, version))
            && sent[|sent| - 1].Outcome? && sent[|sent| - 1].net == net
            && IsShare(sent[|sent| - 1].percentage, |TrueOnes(Verdicts(hubs, es))|, |hubs|)
  {
    var vs := Verdicts(hubs, es);
    SessionRuns(t, net, version, hubs, es);
    TrueIsCounted(vs);
    PercentageIsShare(CountTrue(vs), |hubs|);
    hide RunTask, Start, Verdicts, TrueOnes, CountTrue, Percentage, IsShare;
    var sent := RunTask(Start(t, net, Some(version), hubs), es).value.sent;
    assert sent == t.sent + (Requests(hubs, net, version) + [Outcome(net, Percentage(CountTrue(vs), |hubs|))]);
  }

  /** What accepting an update does: with a fetched version and hubs, a request to the first of them; otherwise one
      error, for the network asked about if a version was fetched, and sleep. */
  lemma UpdateAnswers(t: Task, net: string, release: Option<string>, hubs: seq<string>)
    ensures var r := Handle(t, Update(net, release, hubs));
            && r.Some?
            && var t1 := r.value;
               && |t1.sent| == |t.sent| + 1 && t.sent <= t1.sent
               && var out := t1.sent[|t.sent|];
                  if release.Some? && hubs != [] then
                    && t1.working && out == UpdateRequest(hubs[0], net, release.value)
                    && t1.toTimer == t.toTimer + [InitTimer(hubs[0])]
                  else
                    !t1.working && out == OutcomeError(if release.Some? then net else t.network) && t1.toTimer == t.toTimer
  {
  }

  /** A session over the hubs of a network, under any mix of responses (from any sender) and expiries:
      requests go out once per hub in list order, each only when its predecessor is resolved, and the one
      outcome, sent when the last hub is resolved, counts the hubs that were updated or successful. */
  lemma {:induction false} SessionRuns(t: Task, net: string, version: string, hubs: seq<string>, es: seq<Event>)
    requires hubs != [] && (forall e :: e in es ==> !e.Update?)
    requires RunTask(Start(t, net, Some(version), hubs), es).Some?
    ensures InSession(RunTask(Start(t, net, Some(version), hubs), es).value, t.sent, hubs, net, version, Verdicts(hubs, es))
    decreases |es|
  {
    var t0 := Start(t, net, Some(version), hubs);
    if es == [] {
      StartOpens(t, net, version, hubs);
    } else {
      var n := |es| - 1;
      RunTaskLast(t0, es);
      SessionRuns(t, net, version, hubs, es[..n]);
      var t1 := RunTask(t0, es[..n]).value;
      var vs := Verdicts(hubs, es[..n]);
      assert !es[n].Update?;
      hide InSession, RunTask, Start;
      SessionStep(t1, t.sent, hubs, net, version, vs, es[n]);
    }
  }

  lemma SessionStep(t: Task, before: seq<Output>, hubs: seq<string>, net: string, version: string, vs: seq<bool>, e: Event)
    requires InSession(t, before, hubs, net, version, vs) && !e.Update? && Handle(t, e).Some?
    ensures InSession(Handle(t, e).value, before, hubs, net, version,
                      if |vs| == |hubs| then vs
                      else match e
                        case Expiry => vs + [false]
                        case HubResponse(sender, u, s) => if sender == hubs[|vs|] then vs + [u || s] else vs
                        case _ => vs)
  {
    hide Resolve, SessionOutput;
    match e {
      case Expiry => ResolveAdvances(t, before, hubs, net, version, vs, false, false);
      case HubResponse(sender, u, s) =>
        if t.working && sender == hubs[|vs|] {
          ResolveAdvances(t, before, hubs, net, version, vs, u, s);
        }
      case OtherCommand =>
    }
  }

  // --- task and watchdog, run to completion ------------------------------------------------------------------------------

  datatype Sys = Sys(task: Task, timer: Timer<string>)

  /** A command or response may come at any time, an expiry only from a running watchdog. */
  predicate Enabled(s: Sys, e: Event) { e == Expiry ==> !s.timer.Idle? }

  /** A new update is accepted only while the task sleeps. */
  predicate Disciplined(s: Sys, e: Event) { e.Update? ==> !s.task.working }

  function NewCommands(before: Task, after: Task): seq<TimerCmd<string>>
    requires |before.toTimer| <= |after.toTimer|
  {
    after.toTimer[|before.toTimer|..]
  }

  lemma CommandsGrow(t: Task, e: Event)
    requires Handle(t, e).Some?
    ensures |t.toTimer| <= |Handle(t, e).value.toTimer|
    ensures var hub := if Handle(t, e).value.index < |Handle(t, e).value.vector|
                       then [InitTimer(Handle(t, e).value.vector[Handle(t, e).value.index].id)] else [];
            NewCommands(t, Handle(t, e).value) ==
              match e
              case Update(_, release, hubs) => if release.Some? && hubs != [] then hub else []
              case Expiry => [StopTimer] + hub
              case HubResponse(sender, _, _) =>
                if t.working && t.index < |t.vector| && t.vector[t.index].id == sender then [StopTimer] + hub else []
              case OtherCommand => []
  {
  }

  function Deliver(s: Sys, e: Event): Option<Sys> {
    match Handle(s.task, e)
    case None => None
    case Some(t) =>
      CommandsGrow(s.task, e);
      Some(Sys(t, Feed(if e == Expiry then Idle else s.timer, NewCommands(s.task, t))))
  }

  const NEW_SYS := Sys(NEW_TASK, Idle)

  ghost predicate Allowed(s: Sys, es: seq<Event>)
    decreases |es|
  {
    es == [] || (Enabled(s, es[0]) && Disciplined(s, es[0]) && (Deliver(s, es[0]).Some? ==> Allowed(Deliver(s, es[0]).value, es[1..])))
  }

  function RunSys(s: Sys, es: seq<Event>): Option<Sys>
    decreases |es|
  {
    if es == [] then Some(s)
    else
      match Deliver(s, es[0])
      case None => None
      case Some(s1) => RunSys(s1, es[1..])
  }

  /** The watchdog runs, for the hub being asked, exactly while the task works. */
  ghost predicate Guarded(s: Sys) {
    IndexInStep(s.task) && s.timer == if s.task.working then Armed(s.task.vector[s.task.index].id) else Idle
  }

  lemma DeliverKeepsGuard(s: Sys, e: Event)
    requires Guarded(s) && Enabled(s, e) && Disciplined(s, e)
    ensures Deliver(s, e).Some? && Guarded(Deliver(s, e).value)
    ensures Clean(if e == Expiry then Idle else s.timer, NewCommands(s.task, Deliver(s, e).value.task))
  {
    HandleKeepsIndex(s.task, e);
    CommandsGrow(s.task, e);
    var t := Handle(s.task, e).value;
    var timer := if e == Expiry then Idle else s.timer;
    var cs := NewCommands(s.task, t);
    hide NewCommands;
    if t.working {
      var hub := t.vector[t.index].id;
      OneOrTwoCommands(timer, StopTimer, InitTimer(hub));
      OneOrTwoCommands(timer, InitTimer(hub), StopTimer);
      assert [StopTimer] + [InitTimer(hub)] == [StopTimer, InitTimer(hub)];
      assert cs == [] || cs == [InitTimer(hub)] || cs == [StopTimer, InitTimer(hub)];
    } else {
      OneOrTwoCommands(timer, StopTimer, StopTimer);
      assert cs == [] || cs == [StopTimer];
    }
  }

  /** Every update accepted is answered by one outcome or error, except the one still being worked on. */
  function Answers(out: seq<Output>): nat {
    if out == [] then 0 else Answers(out[..|out| - 1]) + if out[|out| - 1].UpdateRequest? then 0 else 1
  }

  function Updates(es: seq<Event>): nat {
    if es == [] then 0 else (if es[0].Update? then 1 else 0) + Updates(es[1..])
  }

  lemma AnswersGrow(t: Task, e: Event)
    requires IndexInStep(t) && Handle(t, e).Some? && (e.Update? ==> !t.working)
    ensures var t1 := Handle(t, e).value;
            Answers(t1.sent) + (if t1.working then 1 else 0) ==
            Answers(t.sent) + (if t.working then 1 else 0) + (if e.Update? then 1 else 0)
  {
    var t1 := Handle(t, e).value;
    assert t1.sent == t.sent || (|t1.sent| == |t.sent| + 1 && t1.sent[..|t.sent|] == t.sent);
  }

  /** With updates accepted only while the task sleeps, the task never panics, the watchdog runs exactly
      while it works and is never restarted while running, and every update gets exactly one answer. */
  lemma {:induction false} DisciplinedRunsAreSafe(s: Sys, es: seq<Event>)
    requires Guarded(s) && Allowed(s, es)
    ensures RunSys(s, es).Some? && Guarded(RunSys(s, es).value)
    ensures var t := RunSys(s, es).value.task;
            Answers(t.sent) + (if t.working then 1 else 0) ==
            Answers(s.task.sent) + (if s.task.working then 1 else 0) + Updates(es)
    decreases |es|
  {
    if es != [] {
      DeliverKeepsGuard(s, es[0]);
      AnswersGrow(s.task, es[0]);
      hide Guarded, Answers, Handle;
      DisciplinedRunsAreSafe(Deliver(s, es[0]).value, es[1..]);
    }
  }

  /** The same from power-on. */
  lemma DisciplinedFromPowerOn(es: seq<Event>)
    requires Allowed(NEW_SYS, es)
    ensures RunSys(NEW_SYS, es).Some? && Guarded(RunSys(NEW_SYS, es).value)
    ensures var t := RunSys(NEW_SYS, es).value.task;
            Answers(t.sent) + (if t.working then 1 else 0) == Updates(es)
  {
    DisciplinedRunsAreSafe(NEW_SYS, es);
    hide RunSys;
  }

  // --- what goes wrong without the discipline --------------------------------------------------------------------------

  /** Accepting an update keeps task and watchdog in step exactly if the task was sleeping: while it works,
      the new `InitTimer` is swallowed by the running watchdog, or a failed update leaves it running. */
  lemma UpdateKeepsGuardIffSleeping(s: Sys, net: string, release: Option<string>, hubs: seq<string>)
    requires Guarded(s)
    ensures var s1 := Deliver(s, Update(net, release, hubs));
            s1.Some? && (Guarded(s1.value) <==> !s.task.working)
  {
    var e := Update(net, release, hubs);
    CommandsGrow(s.task, e);
    HandleKeepsIndex(s.task, e);
    var t := Handle(s.task, e).value;
    if t.working {
      OneOrTwoCommands(s.timer, InitTimer(t.vector[t.index].id), StopTimer);
    }
    hide NewCommands;
  }

  /** An update that cannot start, accepted while the task works, kills it at the running watchdog's expiry. */
  lemma FailedUpdateWhileWorkingIsFatal(s: Sys, net: string, release: Option<string>, hubs: seq<string>)
    requires Guarded(s) && s.task.working && (release == None || hubs == [])
    ensures var e := Update(net, release, hubs);
            Deliver(s, e).Some? && Enabled(Deliver(s, e).value, Expiry) && RunSys(s, [e, Expiry]) == None
  {
    var e := Update(net, release, hubs);
    CommandsGrow(s.task, e);
    assert [e, Expiry][1..] == [Expiry];
    assert RunSys(Deliver(s, e).value, [Expiry]) == None;
  }

  /** An expiry that was already on its way when the last hub answered kills the task as well. */
  lemma ExpiryBehindLastResponseIsFatal(t: Task, isUpdated: bool, success: bool)
    requires IndexInStep(t) && t.working && t.index == |t.vector| - 1
    ensures RunTask(t, [HubResponse(t.vector[t.index].id, isUpdated, success), Expiry]) == None
  {
    var es := [HubResponse(t.vector[t.index].id, isUpdated, success), Expiry];
    assert es[1..] == [Expiry];
    assert RunTask(Handle(t, es[0]).value, [Expiry]) == None;
  }

  /** The network of the latest update whose version could be fetched. */
  function FetchedNetwork(before: string, es: seq<Event>): string {
    if es == [] then before
    else
      match es[|es| - 1]
      case Update(net, Some(_), _) => net
      case _ => FetchedNetwork(before, es[..|es| - 1])
  }

  lemma {:induction false} NetworkIsTheFetchedOne(t: Task, es: seq<Event>)
    requires RunTask(t, es).Some?
    ensures RunTask(t, es).value.network == FetchedNetwork(t.network, es)
    decreases |es|
  {
    if es != [] {
      RunTaskLast(t, es);
      NetworkIsTheFetchedOne(t, es[..|es| - 1]);
      hide RunTask;
    }
  }

  /** When the version cannot be fetched, the error names the network of the latest update that got
      further, not the one just asked for. */
  lemma FetchErrorNamesEarlierNetwork(es: seq<Event>, net: string, hubs: seq<string>)
    requires RunTask(NEW_TASK, es).Some?
    ensures var t := RunTask(NEW_TASK, es).value;
            && Handle(t, Update(net, None, hubs)).Some?
            && Handle(t, Update(net, None, hubs)).value.sent == t.sent + [OutcomeError(FetchedNetwork("", es))]
  {
    NetworkIsTheFetchedOne(NEW_TASK, es);
    hide RunTask;
  }
}
