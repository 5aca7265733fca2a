/** The timers of the runtime are the watchdog task: in every interleaving they stand where the commands received and
    the sleeps ended lead, and every expiry is passed on once. */
module FsmWatchdog {
  import opened FsmDomain
  import opened FsmTask
  import opened Watchdog
  import opened FsmSystem
  import opened FsmRtcTheorems

  /** What the protocol watchdog observes in a step. */
  function Seen(s: Sys, l: Label): seq<Observation<Mode>>
    requires Enabled(s, l)
  {
    match l
    case WatchdogReceives => [Command(s.task.toTimer[0])]
    case TimerFires => [SleepEnds]
    case _ => []
  }

  /** And along a schedule. */
  ghost function SeenAlong(s: Sys, ls: seq<Label>, maxAttempts: nat): seq<Observation<Mode>>
    requires Schedule(s, ls, maxAttempts)
    decreases |ls|
  {
    if ls == [] then [] else Seen(s, ls[0]) + SeenAlong(Apply(s, ls[0], maxAttempts), ls[1..], maxAttempts)
  }

  lemma StepObserves(s: Sys, l: Label, before: seq<Observation<Mode>>, maxAttempts: nat)
    requires Enabled(s, l) && s.timer == ObserveAll(Idle, before).0
    ensures ObserveAll(Idle, before + Seen(s, l)) ==
            (Apply(s, l, maxAttempts).timer, ObserveAll(Idle, before).1 + if l.TimerFires? then 1 else 0)
  {
    hide Step, HandleAction, HandleCommand;
    if Seen(s, l) == [] {
      assert before + Seen(s, l) == before;
    } else {
      assert (before + Seen(s, l))[..|before|] == before;
    }
  }

  lemma {:induction false} ScheduleObserves(s: Sys, ls: seq<Label>, before: seq<Observation<Mode>>, maxAttempts: nat)
    requires Schedule(s, ls, maxAttempts) && s.timer == ObserveAll(Idle, before).0
    ensures ObserveAll(Idle, before + SeenAlong(s, ls, maxAttempts)) ==
            (Execute(s, ls, maxAttempts).timer, ObserveAll(Idle, before).1 + Expiries(ls))
    decreases |ls|
  {
    hide Apply, Enabled, Seen, ObserveAll;
    if ls == [] {
      assert before + [] == before;
    } else {
      var s1 := Apply(s, ls[0], maxAttempts);
      StepObserves(s, ls[0], before, maxAttempts);
      ScheduleObserves(s1, ls[1..], before + Seen(s, ls[0]), maxAttempts);
      assert before + SeenAlong(s, ls, maxAttempts) == before + Seen(s, ls[0]) + SeenAlong(s1, ls[1..], maxAttempts);
    }
  }

  /** In every interleaving the protocol watchdog is what the commands it has received since its last sleep ended
      make of an idle timer, and it has sent one timeout for each sleep that ended. */
  lemma TimerIsTheWatchdog(ls: seq<Label>, maxAttempts: nat)
    requires Schedule(Init(), ls, maxAttempts)
    ensures var os := SeenAlong(Init(), ls, maxAttempts);
            Execute(Init(), ls, maxAttempts).timer == Feed(Idle, Recent(os)) && Expiries(ls) == |Fired(os)|
  {
    var os := SeenAlong(Init(), ls, maxAttempts);
    ScheduleObserves(Init(), ls, [], maxAttempts);
    assert [] + os == os;
    hide Schedule, Execute, SeenAlong, ObserveAll;
    ObserveAllMeans(os);
  }

  // --- heartbeats to the server --------------------------------------------------------------------------------

  function BeatExpiries(ls: seq<Label>): nat {
    if ls == [] then 0 else (if ls[0].BeatTimerFires? then 1 else 0) + BeatExpiries(ls[1..])
  }

  lemma StepBeats(s: Sys, l: Label, maxAttempts: nat)
    requires Enabled(s, l)
    ensures var s' := Apply(s, l, maxAttempts);
            s'.generator.heartbeatsSent + s'.beatEvents ==
            s.generator.heartbeatsSent + s.beatEvents + if l.BeatTimerFires? then 1 else 0
  {
    hide Step, HandleAction, HandleCommand, BeatCommands, Cadence;
  }

  lemma {:induction false} BeatsAlong(s: Sys, ls: seq<Label>, maxAttempts: nat)
    requires Schedule(s, ls, maxAttempts)
    ensures var s' := Execute(s, ls, maxAttempts);
            s'.generator.heartbeatsSent + s'.beatEvents == s.generator.heartbeatsSent + s.beatEvents + BeatExpiries(ls)
    decreases |ls|
  {
    hide Apply, Enabled;
    if ls != [] {
      StepBeats(s, ls[0], maxAttempts);
      BeatsAlong(Apply(s, ls[0], maxAttempts), ls[1..], maxAttempts);
    }
  }

  /** In every interleaving one heartbeat is sent for each expiry of the heartbeat timer that has been handled, and
      none without. */
  lemma OneHeartbeatPerExpiry(ls: seq<Label>, maxAttempts: nat)
    requires Schedule(Init(), ls, maxAttempts)
    ensures var s := Execute(Init(), ls, maxAttempts); s.generator.heartbeatsSent + s.beatEvents == BeatExpiries(ls)
  {
    BeatsAlong(Init(), ls, maxAttempts);
    hide Schedule, Execute;
  }
}
