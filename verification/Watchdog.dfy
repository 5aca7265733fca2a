/** The one-shot watchdog timer that every service of the gateway owns
    (src/fsm/domain.rs, src/fsm/logic.rs, src/firmware/domain.rs). Time is reduced to "armed" plus a
    firing the environment chooses; `owner` names who asked for the timer and thereby its duration. */
module Watchdog {
  datatype TimerCmd<T> = InitTimer(owner: T) | StopTimer

  /** `Deaf` is the state the source reaches when an `InitTimer` arrives while a timer runs: the
      `select!` branch `Some(StopTimer) = cmd_rx.recv()` consumes the command, does not match, and
      stays disabled until the sleep ends. */
  datatype Timer<T> = Idle | Armed(owner: T) | Deaf(owner: T)

  predicate Listens<T>(t: Timer<T>) { !t.Deaf? }

  /** Effect of one received command. */
  function Receive<T>(t: Timer<T>, c: TimerCmd<T>): Timer<T>
    requires Listens(t)
  {
    match t
    case Idle => if c.InitTimer? then Armed(c.owner) else Idle
    case Armed(o) => if c.StopTimer? then Idle else Deaf(o)
    case Deaf(_) => t
  }

  /** Commands received in order, as far as the timer still listens. */
  function Feed<T>(t: Timer<T>, cs: seq<TimerCmd<T>>): Timer<T>
    decreases |cs|
  {
    if cs == [] || !Listens(t) then t else Feed(Receive(t, cs[0]), cs[1..])
  }

  /** No command of `cs` is an `InitTimer` that meets a running timer. */
  predicate Clean<T>(t: Timer<T>, cs: seq<TimerCmd<T>>)
    decreases |cs|
  {
    Listens(t) && (cs == [] || (!(t.Armed? && cs[0].InitTimer?) && Clean(Receive(t, cs[0]), cs[1..])))
  }

  lemma {:induction false} FeedAppend<T>(t: Timer<T>, a: seq<TimerCmd<T>>, b: seq<TimerCmd<T>>)
    requires Clean(t, a)
    ensures Feed(t, a + b) == Feed(Feed(t, a), b)
    ensures Clean(t, a + b) <==> Clean(Feed(t, a), b)
    decreases |a|
  {
    if a == [] {
      assert a + b == b;
    } else {
      assert (a + b)[0] == a[0] && (a + b)[1..] == a[1..] + b;
      FeedAppend(Receive(t, a[0]), a[1..], b);
    }
  }

  /** A clean command sequence never deafens the timer, and its last command alone decides the state. */
  lemma {:induction false} CleanOutcome<T>(t: Timer<T>, cs: seq<TimerCmd<T>>)
    requires Clean(t, cs)
    ensures Listens(Feed(t, cs))
    ensures cs != [] ==> Feed(t, cs) == if cs[|cs| - 1].InitTimer? then Armed(cs[|cs| - 1].owner) else Idle
    decreases |cs|
  {
    if cs != [] {
      CleanOutcome(Receive(t, cs[0]), cs[1..]);
    }
  }

  lemma OneOrTwoCommands<T>(t: Timer<T>, a: TimerCmd<T>, b: TimerCmd<T>)
    requires Listens(t)
    ensures Clean(t, [])
    ensures Feed(t, [a]) == Receive(t, a)
    ensures Clean(t, [a]) <==> !(t.Armed? && a.InitTimer?)
    ensures Clean(t, [a, b]) <==> !(t.Armed? && a.InitTimer?) && !(Receive(t, a).Armed? && b.InitTimer?)
    ensures Clean(t, [a, b]) ==> Feed(t, [a, b]) == Receive(Receive(t, a), b)
  {
    assert [a][1..] == [] && [a, b][1..] == [b] && [b][1..] == [];
    if !(t.Armed? && a.InitTimer?) {
      var t1 := Receive(t, a);
      assert Clean(t, [a, b]) == Clean(t1, [b]) && Feed(t, [a, b]) == Feed(t1, [b]);
      if !(t1.Armed? && b.InitTimer?) {
        assert Clean(t1, [b]) == Clean(Receive(t1, b), []) && Feed(t1, [b]) == Feed(Receive(t1, b), []);
      }
    }
  }

  /** With the commands on their way, the timer will end up running. */
  predicate WillRun<T>(t: Timer<T>, stream: seq<TimerCmd<T>>) {
    if stream == [] then !t.Idle? else stream[|stream| - 1].InitTimer?
  }

  /** One command received. */
  lemma ReceivedRuns<T>(t: Timer<T>, stream: seq<TimerCmd<T>>)
    requires stream != [] && Listens(t) && WillRun(t, stream)
    ensures WillRun(Receive(t, stream[0]), stream[1..])
  {
  }

  /** What the task can observe: a command on its channel, or the end of the sleep it is in. */
  datatype Observation<T> = Command(cmd: TimerCmd<T>) | SleepEnds

  /** The automaton the task implements: new state and whether a `Timeout` is sent. An observation
      that cannot occur in a state (a sleep ending while idle, a command offered to a deaf timer) has
      no effect: the command stays in its channel and is offered again later. */
  function Observe<T>(t: Timer<T>, o: Observation<T>): (Timer<T>, nat) {
    match o
    case Command(c) => (if Listens(t) then Receive(t, c) else t, 0)
    case SleepEnds => (Idle, if t.Idle? then 0 else 1)
  }

  function ObserveAll<T>(t: Timer<T>, os: seq<Observation<T>>): (Timer<T>, nat)
    decreases |os|
  {
    if os == [] then (t, 0)
    else
      var n := |os| - 1;
      var before := ObserveAll(t, os[..n]);
      var last := Observe(before.0, os[n]);
      (last.0, before.1 + last.1)
  }

  // --- what the task does, told from the observations alone ---------------------------------------------

  /** The commands since the last sleep ended. */
  function Recent<T>(os: seq<Observation<T>>): seq<TimerCmd<T>> {
    if os == [] || os[|os| - 1].SleepEnds? then [] else Recent(os[..|os| - 1]) + [os[|os| - 1].cmd]
  }

  /** The ends of sleeps that were being slept. */
  ghost function Fired<T>(os: seq<Observation<T>>): set<nat> {
    set i: nat | i < |os| && os[i].SleepEnds? && !Feed(Idle, Recent(os[..i])).Idle?
  }

  lemma {:induction false} FeedLast<T>(t: Timer<T>, cs: seq<TimerCmd<T>>, c: TimerCmd<T>)
    ensures Feed(t, cs + [c]) == if Listens(Feed(t, cs)) then Receive(Feed(t, cs), c) else Feed(t, cs)
    decreases |cs|
  {
    if cs == [] || !Listens(t) {
      assert cs + [c] != [] && (cs == [] ==> cs + [c] == [c] && [c][1..] == []);
    } else {
      assert (cs + [c])[0] == cs[0] && (cs + [c])[1..] == cs[1..] + [c];
      FeedLast(Receive(t, cs[0]), cs[1..], c);
    }
  }

  /** Two starts in a row. */
  predicate Doubled<T>(cs: seq<TimerCmd<T>>, j: nat) { j + 1 < |cs| && cs[j].InitTimer? && cs[j + 1].InitTimer? }

  ghost predicate FirstDoubled<T>(cs: seq<TimerCmd<T>>, j: nat) { Doubled(cs, j) && forall i: nat :: i < j ==> !Doubled(cs, i) }

  /** What commands make of an idle timer: the first start that meets a start deafens it in the name of the
      one before; if there is none, the last command decides. */
  lemma {:induction false} FeedMeans<T>(cs: seq<TimerCmd<T>>)
    ensures (exists j: nat :: Doubled(cs, j)) ==> exists j: nat :: FirstDoubled(cs, j) && Feed(Idle, cs) == Deaf(cs[j].owner)
    ensures !(exists j: nat :: Doubled(cs, j)) ==>
              Feed(Idle, cs) == if cs != [] && cs[|cs| - 1].InitTimer? then Armed(cs[|cs| - 1].owner) else Idle
  {
    if cs != [] {
      var n := |cs| - 1;
      var before := cs[..n];
      assert cs == before + [cs[n]];
      FeedMeans(before);
      FeedLast(Idle, before, cs[n]);
      forall j: nat ensures Doubled(cs, j) <==> Doubled(before, j) || (j == n - 1 && Doubled(cs, j)) {
        assert j + 1 < n ==> before[j] == cs[j] && before[j + 1] == cs[j + 1];
      }
      if exists j: nat :: Doubled(before, j) {
        var j: nat :| FirstDoubled(before, j) && Feed(Idle, before) == Deaf(before[j].owner);
        assert FirstDoubled(cs, j);
      } else if n > 0 && Doubled(cs, n - 1) {
        assert FirstDoubled(cs, n - 1);
      } else {
        assert forall j: nat :: !Doubled(cs, j);
      }
    }
  }

  /** The automaton, told from the observations alone. */
  lemma {:induction false} ObserveAllMeans<T>(os: seq<Observation<T>>)
    ensures ObserveAll(Idle, os) == (Feed(Idle, Recent(os)), |Fired(os)|)
  {
    if os == [] {
      assert Fired(os) == {};
    } else {
      var n := |os| - 1;
      ObserveAllMeans(os[..n]);
      FiredGrows(os);
      if os[n].Command? {
        FeedLast(Idle, Recent(os[..n]), os[n].cmd);
      }
    }
  }

  lemma FiredGrows<T>(os: seq<Observation<T>>)
    requires os != []
    ensures var n := |os| - 1;
            |Fired(os)| == |Fired(os[..n])| + if os[n].SleepEnds? && !Feed(Idle, Recent(os[..n])).Idle? then 1 else 0
  {
    var n := |os| - 1;
    forall i: nat | i < n ensures os[..n][..i] == os[..i] && os[..n][i] == os[i] { }
    assert Fired(os) == Fired(os[..n]) + if os[n].SleepEnds? && !Feed(Idle, Recent(os[..n])).Idle? then {n} else {};
  }

  /** After the first `i` observations. */
  function Reached<T>(os: seq<Observation<T>>, i: nat): (Timer<T>, nat)
    requires i <= |os|
  {
    ObserveAll(Idle, os[..i])
  }

  lemma ReachedStep<T>(os: seq<Observation<T>>, i: nat)
    requires i < |os|
    ensures Reached(os, i + 1) == (Observe(Reached(os, i).0, os[i]).0, Reached(os, i).1 + Observe(Reached(os, i).0, os[i]).1)
  {
    assert os[..i + 1][..i] == os[..i];
  }

  lemma ReachedEnds<T>(os: seq<Observation<T>>)
    ensures Reached(os, 0) == (Idle, 0) && Reached(os, |os|) == (Feed(Idle, Recent(os)), |Fired(os)|)
  {
    ObserveAllMeans(os);
    assert os[..|os|] == os;
  }

  /** The watchdog task itself: an outer receive, an inner wait on "sleep ends / StopTimer / lost
      command". `timeouts` counts the `Timeout` events it sends: one for each sleep that ends. `waiting` is the
      timer it ends in: what the commands since the last end of a sleep make of an idle one. */
  method RunWatchdog<T>(os: seq<Observation<T>>) returns (waiting: Timer<T>, timeouts: nat)
    ensures waiting == Feed(Idle, Recent(os))
    ensures timeouts == |Fired(os)|
  {
    ReachedEnds(os);
    hide Feed, Recent, Fired, Reached;
    var i := 0;
    timeouts := 0;
    waiting := Idle;
    while i < |os|
      invariant 0 <= i <= |os|
      invariant waiting.Idle?
      invariant Reached(os, i) == (Idle, timeouts)
    {
      ReachedStep(os, i);
      var o := os[i];
      i := i + 1;
      if o.Command? && o.cmd.InitTimer? {
        var owner := o.cmd.owner;
        var branchEnabled := true;
        var sleeping := true;
        while sleeping && i < |os|
          invariant 0 <= i <= |os|
          invariant sleeping ==> Reached(os, i) ==
                                 (if branchEnabled then Armed(owner) else Deaf(owner), timeouts)
          invariant !sleeping ==> Reached(os, i) == (Idle, timeouts)
          decreases |os| - i
        {
          ReachedStep(os, i);
          var inner := os[i];
          i := i + 1;
          match inner {
            case SleepEnds =>
              timeouts := timeouts + 1;
              sleeping := false;
            case Command(c) =>
              if branchEnabled {
                if c.StopTimer? {
                  sleeping := false;
                } else {
                  branchEnabled := false;
                }
              }
          }
        }
        if sleeping {
          waiting := if branchEnabled then Armed(owner) else Deaf(owner);
          return;
        }
      }
    }
  }
}
