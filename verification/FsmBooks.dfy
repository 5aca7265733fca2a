/** The books `FsmAsyncBound` keeps of a run: timers started and timeouts on their way, repeat rounds counted and
    not yet counted. Here, what each kind of step does to them. */
module FsmBooks {
  import opened Common
  import opened FsmDomain
  import opened FsmTask
  import opened Watchdog
  import opened FsmSystem
  import opened FsmAsync
  import opened FsmStale

  /** What the accounts look at. */
  datatype Books = Books(
    mode: Mode, n: nat, opening: nat,
    sent: seq<Event>, running: bool, commands: seq<TimerCmd<Mode>>, queued: seq<Action>)

  function BooksOf(s: Sys): Books
    requires WellFormed(s.fsm)
  {
    Books(ModeOf(s.fsm), s.h.repeats, s.h.opening, s.task.toFsm, !s.timer.Idle?, s.task.toTimer, Outstanding(s))
  }

  function CountTimeouts(es: seq<Event>): nat {
    if es == [] then 0 else (if es[0].Timeout? then 1 else 0) + CountTimeouts(es[1..])
  }

  function CountArms(acts: seq<Action>): nat {
    if acts == [] then 0 else (if Arms(acts[0]) then 1 else 0) + CountArms(acts[1..])
  }

  /** Timers that run or will be started. */
  function Owed(b: Books): nat { (if b.running then 1 else 0) + CountInits(b.commands) + CountArms(b.queued) }

  /** And timeouts sent. */
  function Pending(b: Books): nat { CountTimeouts(b.sent) + Owed(b) }

  /** No more than that can be pending in a mode. */
  function Cap(m: Mode): nat {
    match m
    case Booting | AwaitingEpoch | CheckIn => 0
    case HandshakeIn | RepeatIn => 1
    case AlertPhase => 2
    case DataPhase => 3
    case MonitorPhase | CheckOut => 4
    case HandshakeOut | RepeatOut | Safe | Steady => 5
  }

  /** Starts of the watchdog that led to a mode. */
  function Starts(m: Mode, opening: nat, n: nat): nat {
    match m
    case Booting | AwaitingEpoch => 0
    case HandshakeIn | CheckIn | RepeatIn => 1 + n
    case AlertPhase => 2 + opening
    case DataPhase => 3 + opening
    case MonitorPhase => 4 + opening
    case HandshakeOut | CheckOut | RepeatOut => 5 + opening + n
    case Safe | Steady => 6 + opening + n
  }

  lemma {:induction false} TimeoutsAppend(a: seq<Event>, b: seq<Event>)
    ensures CountTimeouts(a + b) == CountTimeouts(a) + CountTimeouts(b)
  {
    if a == [] {
      assert a + b == b;
    } else {
      assert (a + b)[0] == a[0] && (a + b)[1..] == a[1..] + b;
      TimeoutsAppend(a[1..], b);
    }
  }

  lemma {:induction false} ArmsAppend(a: seq<Action>, b: seq<Action>)
    ensures CountArms(a + b) == CountArms(a) + CountArms(b)
  {
    if a == [] {
      assert a + b == b;
    } else {
      assert (a + b)[0] == a[0] && (a + b)[1..] == a[1..] + b;
      ArmsAppend(a[1..], b);
    }
  }

  lemma {:induction false} FewArms(acts: seq<Action>)
    requires |acts| <= 3
    ensures CountArms(acts) == ArmsAt(acts, 0) + ArmsAt(acts, 1) + ArmsAt(acts, 2)
    decreases |acts|
  {
    if acts != [] {
      FewArms(acts[1..]);
    }
  }

  predicate NewTimer(m: Mode, to: Mode) {
    m != to && to in {HandshakeIn, RepeatIn, AlertPhase, DataPhase, MonitorPhase, HandshakeOut, RepeatOut, Safe}
  }

  /** Every arrow into a waiting mode arms one timer, and only those do. */
  lemma ArrowArms(m: Mode, e: Event, to: Mode)
    requires ArrowShape(m, to)
    ensures CountArms(Emitted(m, e, to)) ==
            if NewTimer(m, to) then 1 else 0
  {
    ThreeArms(m, e, to);
    hide Emitted;
    FewArms(Emitted(m, e, to));
  }

  lemma ThreeArms(m: Mode, e: Event, to: Mode)
    requires ArrowShape(m, to)
    ensures var acts := Emitted(m, e, to);
            && |acts| <= 3
            && ArmsAt(acts, 0) + ArmsAt(acts, 1) + ArmsAt(acts, 2) ==
               if NewTimer(m, to) then 1 else 0
  {
    if to in {AwaitingEpoch, HandshakeIn, CheckIn, RepeatIn} {
    } else if to in {HandshakeOut, CheckOut, RepeatOut} {
    } else {
    }
  }

  // --- the opening handshake ------------------------------------------------------------------------------

  /** Verdict `v`, sent after a timeout. */
  predicate Late(es: seq<Event>, v: Event) {
    exists i, j :: 0 <= i < j < |es| && es[i] == Timeout && es[j] == v
  }

  /** What verdict `v`, on its way to the machine, says about the opening rounds. */
  predicate OpeningAllows(m: Mode, n: nat, limit: nat, sent: bool, late: bool) {
    && (BeforeAlert(m) && sent ==> n <= limit + 1)
    && (m == HandshakeIn || m == RepeatIn ==> (late ==> n <= limit))
    && (m == CheckIn ==> (sent ==> n <= limit))
  }

  predicate OpeningFor(b: Books, v: Event, limit: nat) {
    OpeningAllows(b.mode, b.n, limit, v in b.sent, Late(b.sent, v))
  }

  predicate OpeningBound(b: Books, maxAttempts: nat) {
    && (b.mode == Booting || b.mode == AwaitingEpoch ==> b.n == 0)
    && (BeforeAlert(b.mode) ==> b.n <= maxAttempts + 1)
    && OpeningFor(b, NotApproveQuorum, maxAttempts)
    && OpeningFor(b, ApproveQuorum, LastChance(maxAttempts))
    && b.opening <= LastChance(maxAttempts) + 1
  }

  // --- the closing handshake -------------------------------------------------------------------------------

  function CountRounds(acts: seq<Action>): nat {
    if acts == [] then 0 else (if acts[0] == OnEntryQuorum(RepeatHandshakeOut) then 1 else 0) + CountRounds(acts[1..])
  }

  /** Timeouts that a refusal follows: only those can lead to a further round. */
  function Useful(es: seq<Event>): nat {
    if NotApproveQuorum !in es then 0 else (if es[0].Timeout? then 1 else 0) + Useful(es[1..])
  }

  function Ahead(m: Mode, es: seq<Event>): nat {
    Useful(es) + if m == CheckOut && NotApproveQuorum in es then 1 else 0
  }

  predicate Closing(m: Mode) { m in {HandshakeOut, CheckOut, RepeatOut} }

  predicate NoPhases(acts: seq<Action>) { forall a :: a in acts ==> !a.OnEntryPhase? }

  /** Votes of the closing handshake are counted after all phases are entered, and rounds of the opening one
      are entered before. */
  predicate Ordered(acts: seq<Action>) {
    acts == [] || (Ordered(acts[1..])
                   && (CountsVotes(acts[0]) ==> NoPhases(acts[1..]))
                   && (acts[0] == OnEntryQuorum(RepeatHandshakeIn) ==> !NoPhases(acts[1..])))
  }

  /** Rounds of the opening handshake are entered before some phase. */
  predicate OpeningFirst(acts: seq<Action>) {
    acts == [] || (OpeningFirst(acts[1..]) && (acts[0] == OnEntryQuorum(RepeatHandshakeIn) ==> !NoPhases(acts[1..])))
  }

  predicate ClosingBound(b: Books, maxAttempts: nat) {
    && (IsPhase(b.mode) ==> b.n == 0 && OpeningFirst(b.queued))
    && (Closing(b.mode) ==>
          && Ordered(b.queued)
          && (b.n - CountRounds(b.queued) <= maxAttempts || b.n + Ahead(b.mode, b.sent) <= maxAttempts + 5))
    && (b.mode == Safe || b.mode == Steady ==> b.n <= maxAttempts + 5)
  }

  predicate Sound(b: Books, maxAttempts: nat) {
    Pending(b) <= Cap(b.mode) && OpeningBound(b, maxAttempts) && ClosingBound(b, maxAttempts)
  }

  // --- small facts -------------------------------------------------------------------------------------------

  lemma {:induction false} RoundsAppend(a: seq<Action>, b: seq<Action>)
    ensures CountRounds(a + b) == CountRounds(a) + CountRounds(b)
  {
    if a == [] {
      assert a + b == b;
    } else {
      assert (a + b)[0] == a[0] && (a + b)[1..] == a[1..] + b;
      RoundsAppend(a[1..], b);
    }
  }

  lemma {:induction false} RoundsAreArms(acts: seq<Action>)
    ensures CountRounds(acts) <= CountArms(acts)
  {
    if acts != [] {
      RoundsAreArms(acts[1..]);
    }
  }

  lemma {:induction false} NoTimeouts(es: seq<Event>)
    ensures CountTimeouts(es) == 0 <==> Timeout !in es
  {
    if es != [] {
      NoTimeouts(es[1..]);
      assert es == [es[0]] + es[1..];
    }
  }

  lemma {:induction false} UsefulBound(es: seq<Event>)
    ensures Useful(es) <= CountTimeouts(es)
    ensures es != [] ==> Useful(es[1..]) + (if es[0].Timeout? && NotApproveQuorum in es then 1 else 0) == Useful(es)
  {
    if es != [] {
      assert es == [es[0]] + es[1..];
      UsefulBound(es[1..]);
      if NotApproveQuorum in es && NotApproveQuorum !in es[1..] {
        assert es[0] == NotApproveQuorum;
      }
    }
  }

  lemma {:induction false} UsefulAppend(es: seq<Event>, e: Event)
    requires e != NotApproveQuorum
    ensures Useful(es + [e]) == Useful(es)
    ensures NotApproveQuorum in es + [e] <==> NotApproveQuorum in es
  {
    if es == [] {
      assert es + [e] == [e];
    } else {
      assert (es + [e])[0] == es[0] && (es + [e])[1..] == es[1..] + [e];
      UsefulAppend(es[1..], e);
    }
  }

  /** With no phase and no opening round outstanding, the attempt counter is short by the rounds outstanding. */
  lemma {:induction false} AttemptsBehind(attempts: nat, acts: seq<Action>)
    requires NoPhases(acts) && OnEntryQuorum(RepeatHandshakeIn) !in acts
    ensures ReplayAttempts(attempts, acts) == attempts + CountRounds(acts)
    decreases |acts|
  {
    if acts != [] {
      assert acts == [acts[0]] + acts[1..];
      assert acts[0] in acts;
      AttemptsBehind(AttemptsAfter(attempts, acts[0]), acts[1..]);
    }
  }

  lemma {:induction false} NoOpeningRounds(acts: seq<Action>)
    requires Ordered(acts) && NoPhases(acts)
    ensures OnEntryQuorum(RepeatHandshakeIn) !in acts
  {
    if acts != [] {
      assert acts == [acts[0]] + acts[1..];
      NoOpeningRounds(acts[1..]);
    }
  }

  lemma {:induction false} OrderedAppend(a: seq<Action>, b: seq<Action>)
    requires Ordered(a) && NoPhases(b) && OnEntryQuorum(RepeatHandshakeIn) !in b
    ensures Ordered(a + b)
  {
    if a == [] {
      assert a + b == b;
      OrderedAlone(b);
    } else {
      assert (a + b)[0] == a[0] && (a + b)[1..] == a[1..] + b;
      OrderedAppend(a[1..], b);
      if !NoPhases(a[1..]) {
        var x :| x in a[1..] && x.OnEntryPhase?;
        assert x in a[1..] + b;
      }
    }
  }

  lemma {:induction false} OrderedAlone(b: seq<Action>)
    requires NoPhases(b) && OnEntryQuorum(RepeatHandshakeIn) !in b
    ensures Ordered(b)
  {
    if b != [] {
      assert b == [b[0]] + b[1..];
      OrderedAlone(b[1..]);
    }
  }

  lemma {:induction false} UncountedIsOrdered(acts: seq<Action>)
    requires OpeningFirst(acts) && NoVoteCounts(acts)
    ensures Ordered(acts)
  {
    if acts != [] {
      assert acts == [acts[0]] + acts[1..];
      assert acts[0] in acts;
      UncountedIsOrdered(acts[1..]);
    }
  }

  lemma {:induction false} PhaseLast(a: seq<Action>, b: seq<Action>)
    requires b != [] && b[|b| - 1].OnEntryPhase? && OpeningFirst(b)
    ensures OpeningFirst(a + b)
  {
    if a == [] {
      assert a + b == b;
    } else {
      assert (a + b)[0] == a[0] && (a + b)[1..] == a[1..] + b;
      PhaseLast(a[1..], b);
      assert b[|b| - 1] in a[1..] + b;
    }
  }

  // --- each kind of step, on the books ---------------------------------------------------------------------

  function Read(b: Books, to: Mode, acts: seq<Action>): Books
    requires b.sent != []
  {
    b.(mode := to, n := RepeatsAfter(b.mode, to, b.n), opening := OpeningAfter(b.mode, to, b.n, b.opening),
       sent := b.sent[1..], queued := b.queued + acts)
  }

  /** The two tables grow along the arrows by what the arrows arm. */
  lemma TablesFit(m: Mode, e: Event, to: Mode, opening: nat, n: nat)
    requires Target(m, e) == Some(to)
    ensures Cap(m) + (if NewTimer(m, to) then 1 else 0) <= Cap(to) + (if e.Timeout? then 1 else 0)
    ensures Starts(m, opening, n) + (if NewTimer(m, to) then 1 else 0) <=
            Starts(to, OpeningAfter(m, to, n, opening), RepeatsAfter(m, to, n))
  {
  }

  lemma ArrowPending(b: Books, e: Event, to: Mode)
    requires b.sent != [] && e == b.sent[0] && Target(b.mode, e) == Some(to)
    ensures var b' := Read(b, to, Emitted(b.mode, e, to));
            && (Pending(b) <= Cap(b.mode) ==> Pending(b') <= Cap(to))
            && Owed(b') + Starts(b.mode, b.opening, b.n) <= Owed(b) + Starts(to, b'.opening, b'.n)
  {
    hide Emitted, Target, Cap, Starts, OpeningAfter, RepeatsAfter;
    ArrowIsShaped(b.mode, e, to);
    ArrowArms(b.mode, e, to);
    TablesFit(b.mode, e, to, b.opening, b.n);
    hide ArrowShape;
    ArmsAppend(b.queued, Emitted(b.mode, e, to));
  }

  lemma LateTail(es: seq<Event>, v: Event)
    requires es != []
    ensures Late(es[1..], v) ==> Late(es, v)
    ensures es[0] == Timeout && v in es[1..] ==> Late(es, v)
    ensures v in es[1..] ==> v in es
  {
    if Late(es[1..], v) {
      var i, j :| 0 <= i < j < |es[1..]| && es[1..][i] == Timeout && es[1..][j] == v;
      assert es[i + 1] == Timeout && es[j + 1] == v;
    }
    if es[0] == Timeout && v in es[1..] {
      var j :| 0 <= j < |es[1..]| && es[1..][j] == v;
      assert es[0] == Timeout && es[j + 1] == v;
    }
  }

  lemma LateNeedsTimeout(es: seq<Event>, v: Event)
    requires Late(es, v)
    ensures CountTimeouts(es) >= 1
  {
    NoTimeouts(es);
  }

  lemma LateMore(es: seq<Event>, e: Event, v: Event)
    requires e != v
    ensures Late(es + [e], v) ==> Late(es, v)
  {
    if Late(es + [e], v) {
      var i, j :| 0 <= i < j < |es + [e]| && (es + [e])[i] == Timeout && (es + [e])[j] == v;
      assert j < |es| && es[i] == Timeout && es[j] == v;
    }
  }

  lemma ArrowOpeningFor(b: Books, e: Event, to: Mode, acts: seq<Action>, v: Event, limit: nat)
    requires b.sent != [] && e == b.sent[0] && Target(b.mode, e) == Some(to)
    requires OpeningFor(b, v, limit) && Pending(b) <= Cap(b.mode)
    requires b.mode == Booting || b.mode == AwaitingEpoch ==> b.n == 0
    ensures OpeningFor(Read(b, to, acts), v, limit)
  {
    hide *;
    LateTail(b.sent, v);
    if b.mode == CheckIn { NothingLate(b, v); }
    OpeningMeans(b, v, limit);
    OpeningMeans(Read(b, to, acts), v, limit);
    ReadBooks(b, to, acts);
    OpeningTable(b.mode, e, to, b.n, limit, v in b.sent, Late(b.sent, v), v in b.sent[1..], Late(b.sent[1..], v));
  }

  lemma OpeningTable(m: Mode, e: Event, to: Mode, n: nat, limit: nat, sent: bool, late: bool, sent': bool, late': bool)
    requires Target(m, e) == Some(to) && OpeningAllows(m, n, limit, sent, late)
    requires (sent' ==> sent) && (late' ==> late) && (e.Timeout? && sent' ==> late) && (m == CheckIn ==> !late')
    requires m == Booting || m == AwaitingEpoch ==> n == 0
    ensures OpeningAllows(to, RepeatsAfter(m, to, n), limit, sent', late')
  {
  }

  lemma OpeningMeans(b: Books, v: Event, limit: nat)
    ensures OpeningFor(b, v, limit) <==> OpeningAllows(b.mode, b.n, limit, v in b.sent, Late(b.sent, v))
  {
  }

  lemma ReadBooks(b: Books, to: Mode, acts: seq<Action>)
    requires b.sent != []
    ensures var b' := Read(b, to, acts);
            b'.mode == to && b'.n == RepeatsAfter(b.mode, to, b.n) && b'.sent == b.sent[1..]
  {
  }

  lemma NothingLate(b: Books, v: Event)
    requires b.sent != [] && b.mode == CheckIn && Pending(b) <= Cap(b.mode)
    ensures !Late(b.sent[1..], v)
  {
    hide Late;
    LateTail(b.sent, v);
    if Late(b.sent[1..], v) { LateNeedsTimeout(b.sent, v); }
  }

  lemma ArrowOpening(b: Books, e: Event, to: Mode, acts: seq<Action>, maxAttempts: nat)
    requires b.sent != [] && e == b.sent[0] && Target(b.mode, e) == Some(to)
    requires OpeningBound(b, maxAttempts) && Pending(b) <= Cap(b.mode)
    ensures OpeningBound(Read(b, to, acts), maxAttempts)
  {
    hide Late, Pending;
    ArrowOpeningFor(b, e, to, acts, NotApproveQuorum, maxAttempts);
    ArrowOpeningFor(b, e, to, acts, ApproveQuorum, LastChance(maxAttempts));
  }

  // What an arrow into or inside the closing handshake emits.
  lemma ClosingEmission(m: Mode, e: Event, to: Mode)
    requires ArrowShape(m, to) && Closing(to)
    ensures var acts := Emitted(m, e, to);
            && NoPhases(acts) && OnEntryQuorum(RepeatHandshakeIn) !in acts
            && CountRounds(acts) == if to == RepeatOut && m != to then 1 else 0
  {
    ThreeRounds(m, e, to);
    hide Emitted;
    FewRounds(Emitted(m, e, to));
  }

  function RoundsAt(acts: seq<Action>, i: nat): nat {
    if i < |acts| && acts[i] == OnEntryQuorum(RepeatHandshakeOut) then 1 else 0
  }

  lemma {:induction false} FewRounds(acts: seq<Action>)
    requires |acts| <= 3
    ensures CountRounds(acts) == RoundsAt(acts, 0) + RoundsAt(acts, 1) + RoundsAt(acts, 2)
    decreases |acts|
  {
    if acts != [] {
      FewRounds(acts[1..]);
    }
  }

  lemma ThreeRounds(m: Mode, e: Event, to: Mode)
    requires ArrowShape(m, to) && Closing(to)
    ensures var acts := Emitted(m, e, to);
            && |acts| <= 3 && NoPhases(acts) && OnEntryQuorum(RepeatHandshakeIn) !in acts
            && RoundsAt(acts, 0) + RoundsAt(acts, 1) + RoundsAt(acts, 2) == if to == RepeatOut && m != to then 1 else 0
  {
  }

  lemma PhaseEmission(m: Mode, e: Event, to: Mode)
    requires IsPhase(to)
    ensures var acts := Emitted(m, e, to);
            acts != [] && acts[|acts| - 1].OnEntryPhase? && OpeningFirst(acts)
  {
    NoOpeningIsFirst(Emitted(m, e, to));
  }

  lemma {:induction false} NoOpeningIsFirst(acts: seq<Action>)
    requires OnEntryQuorum(RepeatHandshakeIn) !in acts
    ensures OpeningFirst(acts)
  {
    if acts != [] {
      assert acts == [acts[0]] + acts[1..];
      NoOpeningIsFirst(acts[1..]);
    }
  }

  /** Into a phase. */
  lemma ArrowIntoPhase(b: Books, e: Event, to: Mode, maxAttempts: nat)
    requires b.sent != [] && IsPhase(to) && b.mode != to
    ensures ClosingBound(Read(b, to, Emitted(b.mode, e, to)), maxAttempts)
  {
    PhaseEmission(b.mode, e, to);
    hide Emitted, OpeningFirst;
    PhaseLast(b.queued, Emitted(b.mode, e, to));
  }

  /** From the last phase into the closing handshake. */
  lemma ArrowIntoClosing(b: Books, e: Event, maxAttempts: nat)
    requires b.sent != [] && b.mode == MonitorPhase && ClosingBound(b, maxAttempts) && NoVoteCounts(b.queued)
    ensures ClosingBound(Read(b, HandshakeOut, Emitted(b.mode, e, HandshakeOut)), maxAttempts)
  {
    ClosingEmission(b.mode, e, HandshakeOut);
    hide Emitted, OpeningFirst, Ordered;
    UncountedIsOrdered(b.queued);
    OrderedAppend(b.queued, Emitted(b.mode, e, HandshakeOut));
  }

  /** Within the closing handshake. */
  lemma ArrowInClosing(b: Books, e: Event, to: Mode, maxAttempts: nat)
    requires b.sent != [] && e == b.sent[0] && Target(b.mode, e) == Some(to) && Closing(b.mode) && Closing(to)
    requires ClosingBound(b, maxAttempts)
    ensures ClosingBound(Read(b, to, Emitted(b.mode, e, to)), maxAttempts)
  {
    ArrowIsShaped(b.mode, e, to);
    ClosingEmission(b.mode, e, to);
    AheadAfter(b.mode, b.sent, to);
    hide Emitted, Ordered, Ahead;
    OrderedAppend(b.queued, Emitted(b.mode, e, to));
    RoundsAppend(b.queued, Emitted(b.mode, e, to));
    hide CountRounds;
  }

  lemma AheadAfter(m: Mode, es: seq<Event>, to: Mode)
    requires es != [] && Target(m, es[0]) == Some(to) && Closing(m) && Closing(to)
    ensures Ahead(to, es[1..]) + (if to == RepeatOut && m != to then 1 else 0) <= Ahead(m, es)
  {
    UsefulBound(es);
    assert es == [es[0]] + es[1..];
  }

  /** Out of a handshake, or into safe mode. */
  lemma ArrowIntoRest(b: Books, e: Event, to: Mode, acts: seq<Action>, maxAttempts: nat)
    requires b.sent != [] && e == b.sent[0] && Target(b.mode, e) == Some(to) && Final(to)
    requires ClosingBound(b, maxAttempts) && OpeningBound(b, maxAttempts) && Pending(b) <= Cap(b.mode)
    ensures ClosingBound(Read(b, to, acts), maxAttempts)
  {
    hide Ordered, OpeningFirst;
    RoundsAreArms(b.queued);
  }

  lemma ArrowClosing(b: Books, e: Event, to: Mode, maxAttempts: nat)
    requires b.sent != [] && e == b.sent[0] && Target(b.mode, e) == Some(to)
    requires ClosingBound(b, maxAttempts) && OpeningBound(b, maxAttempts) && Pending(b) <= Cap(b.mode)
    requires b.mode == MonitorPhase ==> NoVoteCounts(b.queued)
    ensures ClosingBound(Read(b, to, Emitted(b.mode, e, to)), maxAttempts)
  {
    hide ClosingBound, OpeningBound, Emitted, Pending, NoVoteCounts;
    if IsPhase(to) {
      ArrowIntoPhase(b, e, to, maxAttempts);
    } else if Final(to) {
      ArrowIntoRest(b, e, to, Emitted(b.mode, e, to), maxAttempts);
    } else if Closing(to) {
      if Closing(b.mode) {
        ArrowInClosing(b, e, to, maxAttempts);
      } else {
        ArrowIntoClosing(b, e, maxAttempts);
      }
    } else {
      ElsewhereUnbound(Read(b, to, Emitted(b.mode, e, to)), maxAttempts);
    }
  }

  lemma ElsewhereUnbound(b: Books, maxAttempts: nat)
    requires !IsPhase(b.mode) && !Closing(b.mode) && !Final(b.mode)
    ensures ClosingBound(b, maxAttempts)
  {
  }

  lemma ArrowSound(b: Books, e: Event, to: Mode, maxAttempts: nat)
    requires b.sent != [] && e == b.sent[0] && Target(b.mode, e) == Some(to) && Sound(b, maxAttempts)
    requires b.mode == MonitorPhase ==> NoVoteCounts(b.queued)
    ensures var b' := Read(b, to, Emitted(b.mode, e, to));
            Sound(b', maxAttempts) && Owed(b') + Starts(b.mode, b.opening, b.n) <= Owed(b) + Starts(to, b'.opening, b'.n)
  {
    hide ClosingBound, OpeningBound, Emitted, Pending, Owed, NoVoteCounts, Read, Target, Cap, Starts;
    ArrowPending(b, e, to);
    ArrowOpening(b, e, to, Emitted(b.mode, e, to), maxAttempts);
    ArrowClosing(b, e, to, maxAttempts);
    ReadBooks(b, to, Emitted(b.mode, e, to));
  }

  lemma RejectionSound(b: Books, maxAttempts: nat)
    requires b.sent != [] && Sound(b, maxAttempts)
    ensures Sound(b.(sent := b.sent[1..]), maxAttempts)
  {
    hide Late, Ordered, OpeningFirst;
    LateTail(b.sent, NotApproveQuorum);
    LateTail(b.sent, ApproveQuorum);
    UsefulBound(b.sent);
  }

  // What executing an action does: one verdict or none, one command or none.
  function Do(b: Books, es: seq<Event>): Books
    requires b.queued != []
  {
    b.(sent := b.sent + es, commands := b.commands + TimerCommandsOf(b.queued[0]), queued := b.queued[1..])
  }

  /** The verdict counts `attempts` rounds; it refuses only up to the maximum. */
  predicate Says(a: Action, es: seq<Event>, attempts: nat, maxAttempts: nat) {
    if CountsVotes(a) then
      && |es| == 1 && IsVerdict(es[0])
      && (es[0] == NotApproveQuorum ==> attempts <= maxAttempts)
      && (es[0] == ApproveQuorum ==> attempts <= LastChance(maxAttempts))
    else es == []
  }

  lemma SaysNoTimeout(a: Action, es: seq<Event>, attempts: nat, maxAttempts: nat)
    requires Says(a, es, attempts, maxAttempts)
    ensures CountTimeouts(es) == 0 && |es| <= 1
    ensures NotApproveQuorum in es ==> attempts <= maxAttempts
    ensures ApproveQuorum in es ==> attempts <= LastChance(maxAttempts)
  {
    if es != [] {
      assert es[1..] == [];
    }
  }

  lemma DoPending(b: Books, es: seq<Event>)
    requires b.queued != [] && CountTimeouts(es) == 0
    ensures Pending(Do(b, es)) == Pending(b) && Owed(Do(b, es)) == Owed(b)
  {
    TimeoutsAppend(b.sent, es);
    CountsAppend([], [], b.commands, TimerCommandsOf(b.queued[0]));
    CommandCount(b.queued[0]);
    hide TimerCommandsOf, Arms;
  }

  lemma {:induction false} FewAttempts(attempts: nat, acts: seq<Action>)
    ensures ReplayAttempts(attempts, acts) <= attempts + CountArms(acts)
    decreases |acts|
  {
    if acts != [] {
      FewAttempts(AttemptsAfter(attempts, acts[0]), acts[1..]);
    }
  }

  /** In the opening handshake at most one round is outstanding, and none behind a timeout. */
  lemma OpeningLag(b: Books, attempts: nat)
    requires Pending(b) <= Cap(b.mode) && ReplayAttempts(attempts, b.queued) == b.n && BeforeAlert(b.mode)
    ensures b.n <= attempts + 1
    ensures b.mode == CheckIn || CountTimeouts(b.sent) >= 1 ==> b.n <= attempts
  {
    FewAttempts(attempts, b.queued);
  }

  lemma LateIsNew(es: seq<Event>, more: seq<Event>, v: Event)
    requires |more| <= 1
    ensures Late(es + more, v) ==> Late(es, v) || (v in more && CountTimeouts(es) >= 1 && v != Timeout) || v == Timeout
    ensures v in es + more ==> v in es || v in more
  {
    if Late(es + more, v) && v != Timeout {
      var i, j :| 0 <= i < j < |es + more| && (es + more)[i] == Timeout && (es + more)[j] == v;
      assert es[i] == Timeout;
      if j < |es| {
        assert es[j] == v;
      } else {
        assert more[0] == v;
        NoTimeouts(es);
      }
    }
  }

  lemma DoOpeningFor(b: Books, es: seq<Event>, attempts: nat, v: Event, limit: nat)
    requires b.queued != [] && OpeningFor(b, v, limit) && Pending(b) <= Cap(b.mode)
    requires ReplayAttempts(attempts, b.queued) == b.n && |es| <= 1 && v != Timeout
    requires v in es ==> attempts <= limit
    ensures OpeningFor(Do(b, es), v, limit)
  {
    hide Late, Pending;
    LateIsNew(b.sent, es, v);
    if BeforeAlert(b.mode) {
      OpeningLag(b, attempts);
    }
  }

  lemma DoOpening(b: Books, es: seq<Event>, attempts: nat, maxAttempts: nat)
    requires b.queued != [] && OpeningBound(b, maxAttempts) && Pending(b) <= Cap(b.mode)
    requires ReplayAttempts(attempts, b.queued) == b.n && |es| <= 1
    requires NotApproveQuorum in es ==> attempts <= maxAttempts
    requires ApproveQuorum in es ==> attempts <= LastChance(maxAttempts)
    ensures OpeningBound(Do(b, es), maxAttempts)
  {
    DoOpeningFor(b, es, attempts, NotApproveQuorum, maxAttempts);
    DoOpeningFor(b, es, attempts, ApproveQuorum, LastChance(maxAttempts));
    hide OpeningFor, Pending;
  }

  /** In the closing handshake a count at the head has every round it must count before it. */
  lemma ClosingCount(b: Books, attempts: nat)
    requires b.queued != [] && Ordered(b.queued) && CountsVotes(b.queued[0])
    requires ReplayAttempts(attempts, b.queued) == b.n
    ensures b.n == attempts + CountRounds(b.queued)
  {
    assert b.queued == [b.queued[0]] + b.queued[1..];
    NoOpeningRounds(b.queued);
    AttemptsBehind(attempts, b.queued);
  }

  /** A round entered late: the rounds outstanding and the timeouts sent are few. */
  lemma RoundEntered(b: Books, maxAttempts: nat)
    requires b.queued != [] && Closing(b.mode) && ClosingBound(b, maxAttempts) && Pending(b) <= Cap(b.mode)
    requires b.queued[0] == OnEntryQuorum(RepeatHandshakeOut)
    ensures ClosingBound(Do(b, []), maxAttempts)
  {
    RoundsAreArms(b.queued);
    UsefulBound(b.sent);
    assert b.sent + [] == b.sent;
    hide Useful, CountTimeouts, CountArms, CountInits;
  }

  lemma CountExecuted(b: Books, es: seq<Event>, attempts: nat, maxAttempts: nat)
    requires b.queued != [] && Closing(b.mode) && ClosingBound(b, maxAttempts)
    requires ReplayAttempts(attempts, b.queued) == b.n && CountsVotes(b.queued[0])
    requires |es| == 1 && (es[0] == NotApproveQuorum ==> attempts <= maxAttempts)
    ensures ClosingBound(Do(b, es), maxAttempts)
  {
    assert CountRounds(b.queued[1..]) == CountRounds(b.queued) && Ordered(b.queued[1..]);
    if es[0] == NotApproveQuorum {
      ClosingCount(b, attempts);
      hide Ordered, CountRounds, Ahead;
    } else {
      hide Ordered, CountRounds;
      UsefulAppend(b.sent, es[0]);
      assert es == [es[0]];
    }
  }

  lemma OtherExecuted(b: Books, maxAttempts: nat)
    requires b.queued != [] && ClosingBound(b, maxAttempts)
    requires b.queued[0] != OnEntryQuorum(RepeatHandshakeOut)
    ensures ClosingBound(Do(b, []), maxAttempts)
  {
    assert b.sent + [] == b.sent;
    hide Ahead;
  }

  lemma DoClosing(b: Books, es: seq<Event>, attempts: nat, maxAttempts: nat)
    requires b.queued != [] && ClosingBound(b, maxAttempts) && Pending(b) <= Cap(b.mode)
    requires ReplayAttempts(attempts, b.queued) == b.n && Says(b.queued[0], es, attempts, maxAttempts)
    ensures ClosingBound(Do(b, es), maxAttempts)
  {
    if !Closing(b.mode) {
      hide Ordered, Ahead, CountsVotes, IsVerdict;
    } else {
      hide ClosingBound, Pending, Do;
      if CountsVotes(b.queued[0]) {
        CountExecuted(b, es, attempts, maxAttempts);
      } else if b.queued[0] == OnEntryQuorum(RepeatHandshakeOut) {
        RoundEntered(b, maxAttempts);
      } else {
        OtherExecuted(b, maxAttempts);
      }
    }
  }

  lemma DoSound(b: Books, es: seq<Event>, attempts: nat, maxAttempts: nat)
    requires b.queued != [] && Sound(b, maxAttempts)
    requires ReplayAttempts(attempts, b.queued) == b.n && Says(b.queued[0], es, attempts, maxAttempts)
    ensures Sound(Do(b, es), maxAttempts) && Owed(Do(b, es)) == Owed(b)
  {
    hide ClosingBound, OpeningBound, Pending, Owed, Cap;
    SaysNoTimeout(b.queued[0], es, attempts, maxAttempts);
    DoPending(b, es);
    DoOpening(b, es, attempts, maxAttempts);
    DoClosing(b, es, attempts, maxAttempts);
  }

  /** An event that is no verdict. */
  lemma HeardSound(b: Books, e: Event, maxAttempts: nat)
    requires Sound(b, maxAttempts) && !IsVerdict(e)
    requires e == Timeout ==> b.running
    ensures var b' := b.(sent := b.sent + [e], running := b.running && e != Timeout);
            Sound(b', maxAttempts) && Owed(b') + (if e == Timeout then 1 else 0) == Owed(b)
  {
    hide Late, Ordered, OpeningFirst, CountRounds;
    LateMore(b.sent, e, NotApproveQuorum);
    LateMore(b.sent, e, ApproveQuorum);
    UsefulAppend(b.sent, e);
    TimeoutsAppend(b.sent, [e]);
    assert CountTimeouts([e]) == if e == Timeout then 1 else 0 by { assert [e][1..] == []; }
  }

  /** Commands sent that are not starts, and commands taken. */
  lemma CancelSound(b: Books, cancel: seq<TimerCmd<Mode>>, maxAttempts: nat)
    requires Sound(b, maxAttempts) && (cancel == [] || cancel == [TimerCmd.StopTimer])
    ensures var b' := b.(commands := b.commands + cancel); Sound(b', maxAttempts) && Owed(b') == Owed(b)
  {
    hide Late, Ordered, OpeningFirst, CountRounds, Ahead;
    CountsAppend([], [], b.commands, cancel);
    assert CountInits(cancel) == 0;
  }

  lemma TakenSound(b: Books, running: bool, maxAttempts: nat)
    requires Sound(b, maxAttempts) && b.commands != []
    requires running ==> b.running || b.commands[0].InitTimer?
    ensures var b' := b.(commands := b.commands[1..], running := running);
            Sound(b', maxAttempts) && Owed(b') <= Owed(b)
  {
    hide Late, Ordered, OpeningFirst, CountRounds, Ahead;
  }
}
