/** Store-and-forward of telemetry (src/database): the write buffer of `dba_insert_task`, the four tables
    of the repository, and the drain of `dba_get_task`. A table is the sequence of its rows in id order,
    and any SQL statement may fail. */
module StoreForward {
  import opened Common

  type Row = string

  /** In the order in which `insert` and `pop_batch` visit the tables. */
  datatype Kind = Measurement | Monitor | AlertTh | AlertAir

  function Turn(k: Kind): nat {
    match k case Measurement => 0 case Monitor => 1 case AlertTh => 2 case AlertAir => 3
  }

  const BATCH_SIZE := 49
  const LIMIT := 10

  datatype HubMessage = Report(row: Row) | MonitorData(row: Row) | AlertAirData(row: Row) | AlertTem(row: Row) | NotTelemetry

  /** One sequence of rows per kind: a buffer, the tables, or a batch. */
  datatype Rows = Rows(measurement: seq<Row>, monitor: seq<Row>, alertTh: seq<Row>, alertAir: seq<Row>) {
    function Of(k: Kind): seq<Row> {
      match k case Measurement => measurement case Monitor => monitor case AlertTh => alertTh case AlertAir => alertAir
    }

    function Plus(b: Rows): Rows {
      Rows(measurement + b.measurement, monitor + b.monitor, alertTh + b.alertTh, alertAir + b.alertAir)
    }

    /** The part that belongs to the tables before turn `stop`. */
    function Before(stop: nat): Rows {
      Rows(if 0 < stop then measurement else [], if 1 < stop then monitor else [],
           if 2 < stop then alertTh else [], if 3 < stop then alertAir else [])
    }

    /** The part that belongs to the tables from turn `stop` on. */
    function From(stop: nat): Rows {
      Rows(if 0 < stop then [] else measurement, if 1 < stop then [] else monitor,
           if 2 < stop then [] else alertTh, if 3 < stop then [] else alertAir)
    }

    predicate IsEmpty() { measurement == [] && monitor == [] && alertTh == [] && alertAir == [] }
  }

  const NO_ROWS := Rows([], [], [], [])

  /** Rows are known by their kinds. */
  lemma RowsAt(a: Rows, b: Rows, stop: nat, k: Kind)
    ensures a.Plus(b).Of(k) == a.Of(k) + b.Of(k)
    ensures a.Before(stop).Of(k) == if Turn(k) < stop then a.Of(k) else []
    ensures a.From(stop).Of(k) == if Turn(k) < stop then [] else a.Of(k)
    ensures a.IsEmpty() ==> a.Of(k) == []
    ensures NO_ROWS.Of(k) == []
    ensures Turn(k) < 4
  {
  }

  /** The rows a message adds. */
  function Telemetry(m: HubMessage): Rows {
    match m
    case Report(r) => Rows([r], [], [], [])
    case MonitorData(r) => Rows([], [r], [], [])
    case AlertTem(r) => Rows([], [], [r], [])
    case AlertAirData(r) => Rows([], [], [], [r])
    case NotTelemetry => NO_ROWS
  }

  function Oldest(rows: seq<Row>): seq<Row> { rows[..Min(|rows|, LIMIT)] }

  function Younger(rows: seq<Row>): seq<Row> { rows[Min(|rows|, LIMIT)..] }

  // --- the tables -------------------------------------------------------------------------------------

  /** Turn of the first table whose insertion fails; 4 if none does. An empty vector is not inserted, so
      it cannot fail. */
  function FlushStops(b: Rows, fails: set<Kind>): nat {
    if Measurement in fails && b.measurement != [] then 0
    else if Monitor in fails && b.monitor != [] then 1
    else if AlertTh in fails && b.alertTh != [] then 2
    else if AlertAir in fails && b.alertAir != [] then 3
    else 4
  }

  /** Turn of the first table whose pop fails; 4 if none does. */
  function PopStops(fails: set<Kind>): nat {
    if Measurement in fails then 0
    else if Monitor in fails then 1
    else if AlertTh in fails then 2
    else if AlertAir in fails then 3
    else 4
  }

  class Repository {
    var measurement: seq<Row>
    var monitor: seq<Row>
    var alertTh: seq<Row>
    var alertAir: seq<Row>

    function View(): Rows
      reads this
    {
      Rows(measurement, monitor, alertTh, alertAir)
    }

    constructor ()
      ensures View() == NO_ROWS
    {
      measurement, monitor, alertTh, alertAir := [], [], [], [];
    }

    /** `insert`: table by table, abandoned at the first error. Each table's insertion is one statement. */
    method Insert(b: Rows, fails: set<Kind>) returns (ok: bool)
      modifies this
      ensures ok == (FlushStops(b, fails) == 4)
      ensures forall k :: View().Of(k) == old(View()).Of(k) + if Turn(k) < FlushStops(b, fails) then b.Of(k) else []
    {
      ok := false;
      if b.measurement != [] {
        if Measurement in fails { return; }
        measurement := measurement + b.measurement;
      }
      if b.monitor != [] {
        if Monitor in fails { return; }
        monitor := monitor + b.monitor;
      }
      if b.alertTh != [] {
        if AlertTh in fails { return; }
        alertTh := alertTh + b.alertTh;
      }
      if b.alertAir != [] {
        if AlertAir in fails { return; }
        alertAir := alertAir + b.alertAir;
      }
      ok := true;
    }

    /** `pop_batch`: the oldest LIMIT rows of each table, deleted as they are returned. The order of the
        rows inside one answer is left open. On an error the tables already popped have lost their rows. */
    method PopBatch(fails: set<Kind>) returns (ok: bool, batch: Rows)
      modifies this
      ensures ok == (PopStops(fails) == 4)
      ensures ok ==> Shuffles(batch, Slice(old(View())))
      ensures View() == AfterPop(old(View()), fails)
    {
      batch := NO_ROWS;
      ok := false;
      if Measurement in fails { return; }
      var m := Oldest(measurement);
      measurement := Younger(measurement);
      if Monitor in fails { return; }
      var mo := Oldest(monitor);
      monitor := Younger(monitor);
      if AlertTh in fails { return; }
      var th := Oldest(alertTh);
      alertTh := Younger(alertTh);
      if AlertAir in fails { return; }
      var air := Oldest(alertAir);
      alertAir := Younger(alertAir);
      batch := Rows(m, mo, th, air);
      ok := true;
    }

    /** `get_all_tables`: pop and send until a batch comes back empty or something fails. The i-th round
        meets `faults(i)`. */
    method GetAllTables(faults: nat -> Fault) returns (sent: seq<Rows>)
      modifies this
      ensures var d := Drain(old(View()), faults, 0);
              && View() == d.left
              && |sent| == |d.sent|
              && forall i :: 0 <= i < |sent| ==> Shuffles(sent[i], d.sent[i])
    {
      hide *;
      sent := [];
      var round: nat := 0;
      ghost var slices: seq<Rows> := [];
      while true
        invariant |sent| == |slices|
        invariant forall i :: 0 <= i < |sent| ==> Shuffles(sent[i], slices[i])
        invariant Drain(old(View()), faults, 0).left == Drain(View(), faults, round).left
        invariant Drain(old(View()), faults, 0).sent == slices + Drain(View(), faults, round).sent
        decreases Size(View())
      {
        ghost var tables := View();
        DrainRound(tables, faults, round);
        var ok, batch := PopBatch(faults(round).fails);
        if !ok {
          break;
        }
        EmptyAnswer(batch, tables);
        if batch.IsEmpty() || faults(round).closed {
          break;
        }
        sent, slices := sent + [batch], slices + [Slice(tables)];
        round := round + 1;
      }
    }
  }

  /** The oldest LIMIT rows of every table, and what they leave behind. */
  function Slice(t: Rows): Rows { Rows(Oldest(t.measurement), Oldest(t.monitor), Oldest(t.alertTh), Oldest(t.alertAir)) }

  function Remainder(t: Rows): Rows {
    Rows(Younger(t.measurement), Younger(t.monitor), Younger(t.alertTh), Younger(t.alertAir))
  }

  function AfterPop(t: Rows, fails: set<Kind>): Rows {
    Remainder(t).Before(PopStops(fails)).Plus(t.From(PopStops(fails)))
  }

  /** The same rows per kind, in some order. */
  ghost predicate Shuffles(a: Rows, b: Rows) { forall k :: multiset(a.Of(k)) == multiset(b.Of(k)) }

  // --- the drain -----------------------------------------------------------------------------------------

  /** What one round of a drain meets: tables whose pop fails, and a closed channel to the core. */
  datatype Fault = Fault(fails: set<Kind>, closed: bool)

  const NO_FAULT := Fault({}, false)

  function Size(t: Rows): nat { |t.measurement| + |t.monitor| + |t.alertTh| + |t.alertAir| }

  datatype Drained = Drained(sent: seq<Rows>, left: Rows, lost: Rows)

  function Drain(t: Rows, faults: nat -> Fault, round: nat): Drained
    decreases Size(t)
  {
    var f := faults(round);
    var left := AfterPop(t, f.fails);
    if PopStops(f.fails) < 4 then
      Drained([], left, Slice(t).Before(PopStops(f.fails)))
    else if t.IsEmpty() then Drained([], left, NO_ROWS)
    else if f.closed then Drained([], left, Slice(t))
    else
      var d := Drain(left, faults, round + 1);
      d.(sent := [Slice(t)] + d.sent)
  }

  lemma DrainRound(t: Rows, faults: nat -> Fault, round: nat)
    ensures var f, d, left := faults(round), Drain(t, faults, round), AfterPop(t, faults(round).fails);
            if PopStops(f.fails) == 4 && !t.IsEmpty() && !f.closed then
              var rest := Drain(left, faults, round + 1);
              Size(left) < Size(t) && d.left == rest.left && d.lost == rest.lost && d.sent == [Slice(t)] + rest.sent
            else d.sent == [] && d.left == left
    ensures faults(round) == NO_FAULT && t.IsEmpty() ==> Drain(t, faults, round) == Drained([], NO_ROWS, NO_ROWS)
  {
  }

  lemma SplitByAge(t: Rows, k: Kind)
    ensures t.Of(k) == Slice(t).Of(k) + Remainder(t).Of(k)
    ensures |Slice(t).Of(k)| <= LIMIT
    ensures !t.IsEmpty() ==> !Slice(t).IsEmpty()
  {
  }

  lemma WholePop(t: Rows, fails: set<Kind>)
    requires PopStops(fails) == 4
    ensures AfterPop(t, fails) == Remainder(t)
  {
  }

  lemma EmptyAnswer(batch: Rows, t: Rows)
    requires Shuffles(batch, Slice(t))
    ensures batch.IsEmpty() == t.IsEmpty()
  {
    assert forall k :: |batch.Of(k)| == |multiset(batch.Of(k))| == |Slice(t).Of(k)|;
    assert batch.Of(Measurement) == batch.measurement && batch.Of(Monitor) == batch.monitor;
    assert batch.Of(AlertTh) == batch.alertTh && batch.Of(AlertAir) == batch.alertAir;
  }

  // --- drain theorems ----------------------------------------------------------------------------------

  /** Batches one kind needs. */
  function Rounds(n: nat): nat { (n + LIMIT - 1) / LIMIT }

  function RoundsOf(t: Rows): nat {
    Max(Max(Rounds(|t.measurement|), Rounds(|t.monitor|)), Max(Rounds(|t.alertTh|), Rounds(|t.alertAir|)))
  }

  /** Everything the batches carry of one kind, in the order sent. */
  function Carried(batches: seq<Rows>, k: Kind): seq<Row> {
    if batches == [] then [] else batches[0].Of(k) + Carried(batches[1..], k)
  }

  lemma CarriedFirst(batch: Rows, rest: seq<Rows>, k: Kind)
    ensures Carried([batch] + rest, k) == batch.Of(k) + Carried(rest, k)
  {
    assert ([batch] + rest)[1..] == rest;
  }

  lemma OneRoundLess(rows: seq<Row>)
    ensures Rounds(|Younger(rows)|) == if rows == [] then 0 else Rounds(|rows|) - 1
    ensures rows != [] ==> Rounds(|rows|) >= 1
  {
  }

  lemma RoundsStep(t: Rows)
    ensures RoundsOf(Remainder(t)) == if t.IsEmpty() then 0 else RoundsOf(t) - 1
    ensures t.IsEmpty() ==> RoundsOf(t) == 0
  {
    assert Rounds(0) == 0;
    hide Rounds, Younger;
    OneRoundLess(t.measurement);
    OneRoundLess(t.monitor);
    OneRoundLess(t.alertTh);
    OneRoundLess(t.alertAir);
  }

  /** A drain that meets no fault sends exactly as many batches as the fullest table needs, none empty and
      none larger than LIMIT rows per kind, and leaves all tables empty. */
  lemma {:induction false} DrainIsExact(t: Rows, faults: nat -> Fault, round: nat)
    requires forall i :: i >= round ==> faults(i) == NO_FAULT
    ensures var d := Drain(t, faults, round);
            && d.left == NO_ROWS && d.lost == NO_ROWS
            && |d.sent| == RoundsOf(t)
            && forall b :: b in d.sent ==> !b.IsEmpty() && forall k :: |b.Of(k)| <= LIMIT
    decreases Size(t)
  {
    DrainRound(t, faults, round);
    RoundsStep(t);
    if !t.IsEmpty() {
      forall k ensures |Slice(t).Of(k)| <= LIMIT && !Slice(t).IsEmpty() { SplitByAge(t, k); }
      WholePop(t, {});
      assert PopStops({}) == 4;
      hide Drain, RoundsOf, Slice, AfterPop, Remainder;
      DrainIsExact(Remainder(t), faults, round + 1);
    }
  }

  /** The tables after a pop, with the rows taken from them. */
  lemma PopTakes(t: Rows, fails: set<Kind>, k: Kind)
    ensures t.Of(k) == Slice(t).Before(PopStops(fails)).Of(k) + AfterPop(t, fails).Of(k)
    ensures |Slice(t).Before(PopStops(fails)).Of(k)| <= LIMIT
    ensures PopStops(fails) == 4 ==> Slice(t).Before(4) == Slice(t)
  {
    var stop := PopStops(fails);
    SplitByAge(t, k);
    RowsAt(Remainder(t).Before(stop), t.From(stop), stop, k);
    RowsAt(Remainder(t), t, stop, k);
    RowsAt(Slice(t), t, stop, k);
    RowsAt(t, t, stop, k);
    hide Turn, PopStops, Slice, Remainder, Rows.IsEmpty, Rows.Of, Rows.From, Rows.Plus;
  }

  lemma FirstPopFailure(fails: set<Kind>, k: Kind)
    ensures PopStops(fails) <= Turn(k) <==> exists j :: j in fails && Turn(j) <= Turn(k)
    ensures PopStops(fails) == 4 <==> fails == {}
  {
    var stop := PopStops(fails);
    if stop <= Turn(k) {
      var j := if stop == 0 then Measurement else if stop == 1 then Monitor else if stop == 2 then AlertTh else AlertAir;
      assert j in fails && Turn(j) <= Turn(k);
    }
    if fails != {} {
      var j :| j in fails;
      assert j == Measurement || j == Monitor || j == AlertTh || j == AlertAir;
    }
  }

  lemma YoungerOf(t: Rows, k: Kind)
    ensures Remainder(t).Of(k) == t.Of(k)[Min(10, |t.Of(k)|)..]
  {
  }

  /** A pop takes the oldest ten rows of every table before the first one that fails, and answers only if none
      does. */
  lemma PopTakesOldest(t: Rows, fails: set<Kind>, k: Kind)
    ensures PopStops(fails) == 4 <==> fails == {}
    ensures AfterPop(t, fails).Of(k) ==
            if exists j :: j in fails && Turn(j) <= Turn(k) then t.Of(k) else t.Of(k)[Min(10, |t.Of(k)|)..]
  {
    var stop := PopStops(fails);
    FirstPopFailure(fails, k);
    YoungerOf(t, k);
    RowsAt(Remainder(t).Before(stop), t.From(stop), stop, k);
    RowsAt(Remainder(t), t, stop, k);
    RowsAt(t, t, stop, k);
    hide PopStops, Turn, Remainder, Rows.Of, Rows.Plus, Rows.Before, Rows.From;
  }

  /** Whether a round of a drain meets a fault. */
  predicate Faulty(f: Fault) { f.fails != {} || f.closed }

  /** A drain sends a batch in every round up to the first fault, or until the tables are empty. */
  lemma {:induction false} DrainStopsAtFirstFault(t: Rows, faults: nat -> Fault, round: nat)
    ensures var n := |Drain(t, faults, round).sent|;
            && (forall i :: round <= i < round + n ==> !Faulty(faults(i)))
            && n <= RoundsOf(t) && (n == RoundsOf(t) || Faulty(faults(round + n)))
    decreases Size(t)
  {
    hide Drain, AfterPop, Slice, Remainder, RoundsOf;
    DrainRound(t, faults, round);
    RoundsStep(t);
    PopTakesOldest(t, faults(round).fails, Measurement);
    hide PopStops;
    if PopStops(faults(round).fails) == 4 && !t.IsEmpty() && !faults(round).closed {
      WholePop(t, faults(round).fails);
      DrainStopsAtFirstFault(Remainder(t), faults, round + 1);
    }
  }

  lemma StoppedDrain(t: Rows, faults: nat -> Fault, round: nat, k: Kind)
    requires PopStops(faults(round).fails) != 4 || t.IsEmpty() || faults(round).closed
    ensures var d := Drain(t, faults, round);
            t.Of(k) == d.lost.Of(k) + d.left.Of(k) && |d.lost.Of(k)| <= LIMIT
  {
    assert PopStops(faults(round).fails) <= 4;
    PopTakes(t, faults(round).fails, k);
    RowsAt(t, t, 0, k);
    hide PopStops, Slice, AfterPop, Rows.IsEmpty, Rows.Of, Rows.Before;
  }

  /** Whatever happens, a drain accounts for every row: sent, lost and left behind, oldest first; and it
      loses at most one batch. */
  lemma {:induction false} DrainAccounts(t: Rows, faults: nat -> Fault, round: nat, k: Kind)
    ensures var d := Drain(t, faults, round);
            && t.Of(k) == Carried(d.sent, k) + d.lost.Of(k) + d.left.Of(k)
            && |d.lost.Of(k)| <= LIMIT
    decreases Size(t)
  {
    hide Drain, AfterPop, Slice, Remainder;
    DrainRound(t, faults, round);
    if PopStops(faults(round).fails) == 4 && !t.IsEmpty() && !faults(round).closed {
      WholePop(t, faults(round).fails);
      SplitByAge(t, k);
      DrainAccounts(Remainder(t), faults, round + 1, k);
      CarriedFirst(Slice(t), Drain(Remainder(t), faults, round + 1).sent, k);
    } else {
      StoppedDrain(t, faults, round, k);
    }
  }

  // --- buffer and tables as one store -------------------------------------------------------------------

  /** Tables and buffer, with what has been received, forwarded and lost so far. `forwarded` holds the
      batches as they were sent; `slices` only remembers the table rows each was popped from, in id order. */
  datatype Store = Store(tables: Rows, buffer: Rows, received: Rows, forwarded: seq<Rows>, slices: seq<Rows>, lost: Rows)

  const NEW_STORE := Store(NO_ROWS, NO_ROWS, NO_ROWS, [], [], NO_ROWS)

  datatype StoreEvent =
    | Message(message: HubMessage, fails: set<Kind>)  // `fails` matters if the message causes a flush
    | Tick(fails: set<Kind>)                          // the flush timer
    | Pop(fault: Fault, answer: Rows)                 // one round of a drain, and the batch the tables answer

  /** The tables answer the oldest rows, in any order. */
  ghost predicate Possible(s: Store, e: StoreEvent) { e.Pop? ==> Shuffles(e.answer, Slice(s.tables)) }

  predicate SomeFull(b: Rows) {
    || |b.measurement| == BATCH_SIZE
    || |b.alertAir| == BATCH_SIZE
    || |b.alertTh| == BATCH_SIZE
    || |b.monitor| == BATCH_SIZE
  }

  function Receive(s: Store, m: HubMessage): Store {
    s.(buffer := s.buffer.Plus(Telemetry(m)), received := s.received.Plus(Telemetry(m)))
  }

  function Flush(s: Store, fails: set<Kind>): Store {
    var stop := FlushStops(s.buffer, fails);
    s.(tables := s.tables.Plus(s.buffer.Before(stop)), lost := s.lost.Plus(s.buffer.From(stop)), buffer := NO_ROWS)
  }

  predicate Delivers(t: Rows, f: Fault) { PopStops(f.fails) == 4 && !t.IsEmpty() && !f.closed }

  function Popped(s: Store, f: Fault, answer: Rows): Store {
    if Delivers(s.tables, f) then
      s.(tables := AfterPop(s.tables, f.fails), forwarded := s.forwarded + [answer], slices := s.slices + [Slice(s.tables)])
    else
      s.(tables := AfterPop(s.tables, f.fails), lost := s.lost.Plus(Slice(s.tables).Before(PopStops(f.fails))))
  }

  function Step(s: Store, e: StoreEvent): Store {
    match e
    case Message(m, fails) =>
      var s1 := Receive(s, m);
      if SomeFull(s1.buffer) then Flush(s1, fails) else s1
    case Tick(fails) => if s.buffer.IsEmpty() then s else Flush(s, fails)
    case Pop(f, answer) => Popped(s, f, answer)
  }

  function Run(s: Store, es: seq<StoreEvent>): Store
    decreases |es|
  {
    if es == [] then s else Run(Step(s, es[0]), es[1..])
  }

  ghost predicate PossibleRun(s: Store, es: seq<StoreEvent>)
    decreases |es|
  {
    es == [] || (Possible(s, es[0]) && PossibleRun(Step(s, es[0]), es[1..]))
  }

  predicate Healthy(e: StoreEvent) {
    match e case Message(_, f) => f == {} case Tick(f) => f == {} case Pop(f, _) => f == NO_FAULT
  }

  /** A flush empties the buffer; a kind's vector is lost whole exactly when its own table, or an earlier
      one with something to insert, fails, and is stored whole otherwise. */
  lemma FlushStoresOrLoses(s: Store, fails: set<Kind>, k: Kind)
    ensures var t := Flush(s, fails);
            var stopped := exists j :: j in fails && s.buffer.Of(j) != [] && Turn(j) <= Turn(k);
            && t.buffer == NO_ROWS && t.received == s.received && t.forwarded == s.forwarded && t.slices == s.slices
            && t.tables.Of(k) == (if stopped then s.tables.Of(k) else s.tables.Of(k) + s.buffer.Of(k))
            && t.lost.Of(k) == (if stopped then s.lost.Of(k) + s.buffer.Of(k) else s.lost.Of(k))
  {
    FirstFailure(s.buffer, fails, k);
    var stop := FlushStops(s.buffer, fails);
    RowsAt(s.tables, s.buffer.Before(stop), stop, k);
    RowsAt(s.lost, s.buffer.From(stop), stop, k);
    RowsAt(s.buffer, s.buffer, stop, k);
    hide FlushStops, Turn, Rows.Of, Rows.Plus, Rows.Before, Rows.From;
  }

  lemma FirstFailure(b: Rows, fails: set<Kind>, k: Kind)
    ensures FlushStops(b, fails) <= Turn(k) <==> exists j :: j in fails && b.Of(j) != [] && Turn(j) <= Turn(k)
  {
    var stop := FlushStops(b, fails);
    if stop <= Turn(k) {
      var j := if stop == 0 then Measurement else if stop == 1 then Monitor else if stop == 2 then AlertTh else AlertAir;
      assert j in fails && b.Of(j) != [] && Turn(j) <= Turn(k);
    }
  }

  /** Every row received is in exactly one place. */
  ghost predicate Conserves(s: Store, k: Kind) {
    AddsUp(s.received.Of(k), Carried(s.forwarded, k), s.tables.Of(k), s.buffer.Of(k), s.lost.Of(k))
  }

  ghost predicate AddsUp(received: seq<Row>, forwarded: seq<Row>, stored: seq<Row>, buffered: seq<Row>, lost: seq<Row>) {
    multiset(received) == multiset(forwarded) + multiset(stored) + multiset(buffered) + multiset(lost)
  }

  lemma AddsUpMoves(received: seq<Row>, forwarded: seq<Row>, stored: seq<Row>, buffered: seq<Row>, lost: seq<Row>,
                    x: seq<Row>, y: seq<Row>, x': seq<Row>)
    requires multiset(x') == multiset(x)
    ensures AddsUp(received, forwarded, stored, buffered, lost) ==> AddsUp(received + x, forwarded, stored, buffered + x, lost)
    ensures AddsUp(received, forwarded, x + y, buffered, lost) ==> AddsUp(received, forwarded + x', y, buffered, lost)
    ensures AddsUp(received, forwarded, x + y, buffered, lost) ==> AddsUp(received, forwarded, y, buffered, lost + x)
  {
  }

  lemma AddsUpFlushes(received: seq<Row>, forwarded: seq<Row>, stored: seq<Row>, buffered: seq<Row>, lost: seq<Row>)
    requires AddsUp(received, forwarded, stored, buffered, lost)
    ensures AddsUp(received, forwarded, stored + buffered, [], lost)
    ensures AddsUp(received, forwarded, stored, [], lost + buffered)
  {
  }

  ghost predicate BuffersShort(s: Store) { forall k :: |s.buffer.Of(k)| < BATCH_SIZE }

  /** Every batch sent is, in some order, the slice of the tables it was popped from. */
  ghost predicate Matched(s: Store) {
    && |s.forwarded| == |s.slices|
    && forall i :: 0 <= i < |s.slices| ==> Shuffles(s.forwarded[i], s.slices[i]) && forall k :: |s.slices[i].Of(k)| <= LIMIT
  }

  /** The slices forwarded are in the order received, and no row is missing. */
  ghost predicate InOrder(s: Store, k: Kind) {
    Queue(s.received.Of(k), Carried(s.slices, k), s.tables.Of(k), s.buffer.Of(k)) && s.lost.Of(k) == []
  }

  ghost predicate Queue(received: seq<Row>, forwarded: seq<Row>, stored: seq<Row>, buffered: seq<Row>) {
    received == forwarded + stored + buffered
  }

  lemma QueueMoves(received: seq<Row>, forwarded: seq<Row>, stored: seq<Row>, buffered: seq<Row>, x: seq<Row>, y: seq<Row>)
    ensures Queue(received, forwarded, stored, buffered) ==> Queue(received + x, forwarded, stored, buffered + x)
    ensures Queue(received, forwarded, stored, x) ==> Queue(received, forwarded, stored + x, [])
    ensures Queue(received, forwarded, x + y, buffered) ==> Queue(received, forwarded + x, y, buffered)
  {
  }

  lemma FlushConserves(s: Store, fails: set<Kind>, k: Kind)
    requires Conserves(s, k)
    ensures Conserves(Flush(s, fails), k)
  {
    FlushStoresOrLoses(s, fails, k);
    assert NO_ROWS.Of(k) == [];
    hide Flush, FlushStops, AddsUp, Carried, Turn, Rows.Of;
    AddsUpFlushes(s.received.Of(k), Carried(s.forwarded, k), s.tables.Of(k), s.buffer.Of(k), s.lost.Of(k));
  }

  lemma FlushKeepsOrder(s: Store, k: Kind)
    requires InOrder(s, k)
    ensures InOrder(Flush(s, {}), k)
  {
    FlushStoresOrLoses(s, {}, k);
    assert NO_ROWS.Of(k) == [];
    hide Flush, FlushStops, Queue, Carried, Turn, Rows.Of;
    QueueMoves(s.received.Of(k), Carried(s.slices, k), s.tables.Of(k), [], s.buffer.Of(k), []);
  }

  lemma FlushKeeps(s: Store, fails: set<Kind>, k: Kind)
    ensures Conserves(s, k) ==> Conserves(Flush(s, fails), k)
    ensures InOrder(s, k) && fails == {} ==> InOrder(Flush(s, fails), k)
    ensures Flush(s, fails).buffer.Of(k) == []
  {
    assert NO_ROWS.Of(k) == [];
    hide Conserves, InOrder, Rows.Of;
    if Conserves(s, k) { FlushConserves(s, fails, k); }
    if InOrder(s, k) && fails == {} { FlushKeepsOrder(s, k); }
  }

  lemma ReceiveKeeps(s: Store, m: HubMessage, k: Kind)
    ensures Conserves(s, k) ==> Conserves(Receive(s, m), k)
    ensures InOrder(s, k) ==> InOrder(Receive(s, m), k)
  {
    RowsAt(s.buffer, Telemetry(m), 0, k);
    RowsAt(s.received, Telemetry(m), 0, k);
    AddsUpMoves(s.received.Of(k), Carried(s.forwarded, k), s.tables.Of(k), s.buffer.Of(k), s.lost.Of(k),
                Telemetry(m).Of(k), [], Telemetry(m).Of(k));
    QueueMoves(s.received.Of(k), Carried(s.slices, k), s.tables.Of(k), s.buffer.Of(k), Telemetry(m).Of(k), []);
    hide Telemetry, AddsUp, Queue, Rows.Of, Rows.Plus;
  }

  lemma ReceiveGrowsByOne(s: Store, m: HubMessage, k: Kind)
    requires |s.buffer.Of(k)| < BATCH_SIZE && !SomeFull(Receive(s, m).buffer)
    ensures |Receive(s, m).buffer.Of(k)| < BATCH_SIZE
  {
    RowsAt(s.buffer, Telemetry(m), 0, k);
    assert |Telemetry(m).Of(k)| <= 1;
  }

  lemma {:induction false} CarriedLast(batches: seq<Rows>, batch: Rows, k: Kind)
    ensures Carried(batches + [batch], k) == Carried(batches, k) + batch.Of(k)
  {
    if batches == [] {
      assert batches + [batch] == [batch] && [batch][1..] == [];
    } else {
      assert (batches + [batch])[0] == batches[0] && (batches + [batch])[1..] == batches[1..] + [batch];
      CarriedLast(batches[1..], batch, k);
    }
  }

  lemma PopKeeps(s: Store, f: Fault, answer: Rows, k: Kind)
    requires Shuffles(answer, Slice(s.tables))
    ensures Conserves(s, k) ==> Conserves(Popped(s, f, answer), k)
    ensures InOrder(s, k) && f == NO_FAULT ==> InOrder(Popped(s, f, answer), k)
  {
    var taken := Slice(s.tables).Before(PopStops(f.fails));
    assert PopStops({}) == 4;
    assert s.tables.IsEmpty() ==> Slice(s.tables).Of(k) == [];
    PopTakes(s.tables, f.fails, k);
    assert multiset(answer.Of(k)) == multiset(Slice(s.tables).Of(k));
    hide AddsUp, Queue, Turn, PopStops, Slice, AfterPop, Shuffles, Carried, Rows.Of, Rows.Before, Rows.Plus;
    CarriedLast(s.forwarded, answer, k);
    CarriedLast(s.slices, Slice(s.tables), k);
    RowsAt(s.lost, taken, 0, k);
    if Delivers(s.tables, f) {
      AddsUpMoves(s.received.Of(k), Carried(s.forwarded, k), s.tables.Of(k), s.buffer.Of(k), s.lost.Of(k),
                  taken.Of(k), AfterPop(s.tables, f.fails).Of(k), answer.Of(k));
      QueueMoves(s.received.Of(k), Carried(s.slices, k), s.tables.Of(k), s.buffer.Of(k),
                 taken.Of(k), AfterPop(s.tables, f.fails).Of(k));
    } else {
      AddsUpMoves(s.received.Of(k), Carried(s.forwarded, k), s.tables.Of(k), s.buffer.Of(k), s.lost.Of(k),
                  taken.Of(k), AfterPop(s.tables, f.fails).Of(k), taken.Of(k));
    }
  }

  lemma StepMatches(s: Store, e: StoreEvent)
    requires Matched(s) && Possible(s, e)
    ensures Matched(Step(s, e))
  {
    forall k ensures |Slice(s.tables).Of(k)| <= LIMIT { SplitByAge(s.tables, k); }
    hide Slice, Shuffles, AfterPop, FlushStops, PopStops, SomeFull, Rows.Of, Telemetry;
  }

  lemma MessageKeeps(s: Store, m: HubMessage, fails: set<Kind>, k: Kind)
    ensures Kept(s, Step(s, Message(m, fails)), fails == {}, k)
  {
    hide Conserves, InOrder, SomeFull, Receive, Flush, Rows.Of;
    var s1 := Receive(s, m);
    ReceiveKeeps(s, m, k);
    FlushKeeps(s1, fails, k);
    if |s.buffer.Of(k)| < BATCH_SIZE && !SomeFull(s1.buffer) { ReceiveGrowsByOne(s, m, k); }
  }

  /** What one step keeps for a kind; order only if it was `healthy`. */
  ghost predicate Kept(s: Store, s': Store, healthy: bool, k: Kind) {
    && (Conserves(s, k) ==> Conserves(s', k))
    && (InOrder(s, k) && healthy ==> InOrder(s', k))
    && (|s.buffer.Of(k)| < BATCH_SIZE ==> |s'.buffer.Of(k)| < BATCH_SIZE)
  }

  lemma StepKeeps(s: Store, e: StoreEvent, k: Kind)
    requires Possible(s, e)
    ensures Kept(s, Step(s, e), Healthy(e), k)
  {
    hide Conserves, InOrder, Receive, Flush, Rows.Of, Shuffles, Slice, SomeFull;
    match e {
      case Message(m, fails) => MessageKeeps(s, m, fails, k);
      case Tick(fails) => FlushKeeps(s, fails, k);
      case Pop(f, answer) => PopKeeps(s, f, answer, k);
    }
  }

  lemma {:induction false} RunKeeps(s: Store, es: seq<StoreEvent>, k: Kind)
    requires PossibleRun(s, es)
    ensures Matched(s) ==> Matched(Run(s, es))
    ensures Conserves(s, k) ==> Conserves(Run(s, es), k)
    ensures InOrder(s, k) && (forall e :: e in es ==> Healthy(e)) ==> InOrder(Run(s, es), k)
    ensures |s.buffer.Of(k)| < BATCH_SIZE ==> |Run(s, es).buffer.Of(k)| < BATCH_SIZE
    decreases |es|
  {
    hide Conserves, InOrder, Matched, Step, Healthy, Possible;
    if es != [] {
      StepKeeps(s, es[0], k);
      if Matched(s) { StepMatches(s, es[0]); }
      RunKeeps(Step(s, es[0]), es[1..], k);
    }
  }

  /** Over any interleaving of messages, ticks and drain rounds with any SQL failures: every row received
      is forwarded, stored, buffered or lost, and no buffer reaches BATCH_SIZE between two steps. */
  lemma NothingDisappears(es: seq<StoreEvent>)
    requires PossibleRun(NEW_STORE, es)
    ensures forall k :: Conserves(Run(NEW_STORE, es), k)
    ensures BuffersShort(Run(NEW_STORE, es))
  {
    forall k ensures Conserves(Run(NEW_STORE, es), k) && |Run(NEW_STORE, es).buffer.Of(k)| < BATCH_SIZE {
      RunKeeps(NEW_STORE, es, k);
    }
  }

  /** Without faults nothing is lost, and rows leave in the order in which they came, up to the order inside
      a batch of at most LIMIT rows of a kind: the batches sent are, one by one, shuffles of consecutive
      slices of what was received. */
  lemma HealthyRunsKeepOrder(es: seq<StoreEvent>)
    requires PossibleRun(NEW_STORE, es) && forall e :: e in es ==> Healthy(e)
    ensures Matched(Run(NEW_STORE, es))
    ensures forall k :: InOrder(Run(NEW_STORE, es), k)
  {
    assert Matched(NEW_STORE);
    RunKeeps(NEW_STORE, es, Measurement);
    forall k ensures InOrder(Run(NEW_STORE, es), k) {
      RunKeeps(NEW_STORE, es, k);
    }
  }

  // --- messages and rows ------------------------------------------------------------------------------------

  /** The table a message belongs to. */
  predicate Concerns(m: HubMessage, k: Kind) {
    match k
    case Measurement => m.Report?
    case Monitor => m.MonitorData?
    case AlertTh => m.AlertTem?
    case AlertAir => m.AlertAirData?
  }

  /** A message adds its row to the table it belongs to, and nothing anywhere else. */
  lemma OneRowOfItsKind(m: HubMessage, k: Kind)
    ensures Telemetry(m).Of(k) == if Concerns(m, k) then [m.row] else []
    ensures !m.NotTelemetry? <==> exists j :: Concerns(m, j)
  {
    assert Concerns(m, Measurement) || Concerns(m, Monitor) || Concerns(m, AlertTh) || Concerns(m, AlertAir) || m.NotTelemetry?;
  }

  /** The rows of a kind that arrived in the messages of a run, in order. */
  function Arrived(es: seq<StoreEvent>, k: Kind): seq<Row> {
    if es == [] then []
    else (if es[0].Message? && Concerns(es[0].message, k) then [es[0].message.row] else []) + Arrived(es[1..], k)
  }

  lemma StepReceives(s: Store, e: StoreEvent, k: Kind)
    ensures Step(s, e).received.Of(k) ==
            s.received.Of(k) + if e.Message? && Concerns(e.message, k) then [e.message.row] else []
  {
    if e.Message? {
      OneRowOfItsKind(e.message, k);
      RowsAt(s.received, Telemetry(e.message), 0, k);
    }
    hide Telemetry, Concerns, SomeFull, FlushStops, PopStops, AfterPop, Slice, Rows.Of, Rows.Plus;
  }

  lemma {:induction false} RunReceives(s: Store, es: seq<StoreEvent>, k: Kind)
    ensures Run(s, es).received.Of(k) == s.received.Of(k) + Arrived(es, k)
    decreases |es|
  {
    hide Step, Concerns, Rows.Of;
    if es != [] {
      StepReceives(s, es[0], k);
      RunReceives(Step(s, es[0]), es[1..], k);
    }
  }

  /** What a run has received is what its messages carried. */
  lemma ReceivedIsArrived(es: seq<StoreEvent>, k: Kind)
    ensures Run(NEW_STORE, es).received.Of(k) == Arrived(es, k)
  {
    RunReceives(NEW_STORE, es, k);
    assert NO_ROWS.Of(k) == [];
    hide Run, Arrived;
  }

  /** Conservation, told from the messages: each row that arrived is forwarded, stored, buffered or lost. */
  lemma EveryMessageIsKept(es: seq<StoreEvent>, k: Kind)
    requires PossibleRun(NEW_STORE, es)
    ensures var s := Run(NEW_STORE, es);
            multiset(Arrived(es, k)) ==
            multiset(Carried(s.forwarded, k)) + multiset(s.tables.Of(k)) + multiset(s.buffer.Of(k)) + multiset(s.lost.Of(k))
  {
    NothingDisappears(es);
    ReceivedIsArrived(es, k);
    assert Conserves(Run(NEW_STORE, es), k);
    hide Run, PossibleRun, Arrived, Carried, Rows.Of;
  }

  // --- when the buffer is emptied -----------------------------------------------------------------------------

  lemma {:induction false} RunLast(s: Store, es: seq<StoreEvent>, e: StoreEvent)
    ensures Run(s, es + [e]) == Step(Run(s, es), e)
    decreases |es|
  {
    hide Step;
    if es == [] {
      assert es + [e] == [e] && [e][1..] == [];
    } else {
      assert (es + [e])[0] == es[0] && (es + [e])[1..] == es[1..] + [e];
      RunLast(Step(s, es[0]), es[1..], e);
    }
  }

  /** Whatever happened and whatever fails, a tick leaves the buffer empty. */
  lemma TickEmptiesBuffer(es: seq<StoreEvent>, fails: set<Kind>)
    ensures Run(NEW_STORE, es + [Tick(fails)]).buffer == NO_ROWS
  {
    RunLast(NEW_STORE, es, Tick(fails));
    var s := Run(NEW_STORE, es);
    hide Run;
    assert s.buffer.IsEmpty() ==> s.buffer == NO_ROWS;
  }

  /** So in a healthy run every row that arrived before a tick is then forwarded or stored, in order. */
  lemma HealthyTickStoresAll(es: seq<StoreEvent>, k: Kind)
    requires PossibleRun(NEW_STORE, es + [Tick({})]) && forall e :: e in es ==> Healthy(e)
    ensures var s := Run(NEW_STORE, es + [Tick({})]);
            && Arrived(es + [Tick({})], k) == Carried(s.slices, k) + s.tables.Of(k)
            && multiset(Arrived(es + [Tick({})], k)) == multiset(Carried(s.forwarded, k)) + multiset(s.tables.Of(k))
  {
    var all := es + [Tick({})];
    assert forall e :: e in all ==> Healthy(e);
    TickEmptiesBuffer(es, {});
    HealthyRunsKeepOrder(all);
    EveryMessageIsKept(all, k);
    ReceivedIsArrived(all, k);
    var s := Run(NEW_STORE, all);
    assert InOrder(s, k) && NO_ROWS.Of(k) == [];
    hide Run, PossibleRun, Arrived, Carried, Rows.Of, Healthy;
  }

  /** A message flushes exactly if it fills a buffer: while every buffer is below its last place, or the message
      belongs to another, the buffers only grow and the tables stand still. */
  lemma MessageFlushesIff(s: Store, m: HubMessage, fails: set<Kind>)
    requires BuffersShort(s)
    ensures var s' := Step(s, Message(m, fails));
            if exists k :: Concerns(m, k) && |s.buffer.Of(k)| == 48 then s'.buffer == NO_ROWS
            else
              && s'.tables == s.tables && s'.lost == s.lost
              && forall k :: s'.buffer.Of(k) == s.buffer.Of(k) + if Concerns(m, k) then [m.row] else []
  {
    FullMeans(Receive(s, m).buffer);
    forall k ensures Receive(s, m).buffer.Of(k) == s.buffer.Of(k) + if Concerns(m, k) then [m.row] else [] {
      RowsAt(s.buffer, Telemetry(m), 0, k);
      OneRowOfItsKind(m, k);
    }
    assert forall k :: |s.buffer.Of(k)| < 49;
    hide SomeFull, Telemetry, Rows.Of, Rows.Plus, FlushStops;
  }

  lemma FullMeans(b: Rows)
    ensures SomeFull(b) <==> exists k :: |b.Of(k)| == 49
  {
    if SomeFull(b) {
      assert |b.Of(Measurement)| == 49 || |b.Of(AlertAir)| == 49 || |b.Of(AlertTh)| == 49 || |b.Of(Monitor)| == 49;
    }
  }

  // --- a drain inside the store ---------------------------------------------------------------------------

  /** The order in which the i-th round's rows are answered. */
  type Order = (nat, Rows) -> Rows

  ghost predicate OnlyOrders(order: Order) { forall i: nat, t: Rows :: Shuffles(order(i, t), t) }

  /** The store events of a whole drain. */
  function DrainEvents(t: Rows, faults: nat -> Fault, order: Order, round: nat): seq<StoreEvent>
    decreases Size(t)
  {
    var f := faults(round);
    [Pop(f, order(round, Slice(t)))] + if Delivers(t, f) then
                                         DrainRound(t, faults, round);
                                         DrainEvents(AfterPop(t, f.fails), faults, order, round + 1)
                                       else []
  }

  function Answers(slices: seq<Rows>, order: Order, round: nat): seq<Rows> {
    if slices == [] then [] else [order(round, slices[0])] + Answers(slices[1..], order, round + 1)
  }

  /** `s'` is `s` after a drain with outcome `d`. */
  ghost predicate Drains(s: Store, s': Store, d: Drained, order: Order, round: nat, k: Kind) {
    && s'.tables == d.left && s'.buffer == s.buffer && s'.received == s.received
    && s'.slices == s.slices + d.sent && s'.forwarded == s.forwarded + Answers(d.sent, order, round)
    && s'.lost.Of(k) == s.lost.Of(k) + d.lost.Of(k)
  }

  lemma FirstRound(s: Store, faults: nat -> Fault, order: Order, round: nat)
    requires OnlyOrders(order)
    ensures var t, f, es := s.tables, faults(round), DrainEvents(s.tables, faults, order, round);
            var s1 := Popped(s, f, order(round, Slice(t)));
            if Delivers(t, f) then
              var rest := DrainEvents(s1.tables, faults, order, round + 1);
              && Size(s1.tables) < Size(t)
              && Run(s, es) == Run(s1, rest) && (PossibleRun(s, es) <==> PossibleRun(s1, rest))
              && Drain(t, faults, round) == Drain(s1.tables, faults, round + 1).(sent := [Slice(t)] + Drain(s1.tables, faults, round + 1).sent)
            else Run(s, es) == s1 && PossibleRun(s, es)
  {
    DrainRound(s.tables, faults, round);
    hide AfterPop, Drain, Slice, PopStops, Size;
    assert Shuffles(order(round, Slice(s.tables)), Slice(s.tables));
    hide OnlyOrders, Shuffles;
  }

  /** A drain is a possible run of the store: it moves rows from the tables to forwarded and lost as `Drain`
      says, and touches neither the buffer nor what was received. */
  lemma {:induction false} DrainIsARun(s: Store, faults: nat -> Fault, order: Order, round: nat, k: Kind)
    requires OnlyOrders(order)
    ensures PossibleRun(s, DrainEvents(s.tables, faults, order, round))
    ensures Drains(s, Run(s, DrainEvents(s.tables, faults, order, round)), Drain(s.tables, faults, round), order, round, k)
    decreases Size(s.tables)
  {
    hide *;
    FirstRound(s, faults, order, round);
    if Delivers(s.tables, faults(round)) {
      var s1 := Popped(s, faults(round), order(round, Slice(s.tables)));
      DrainIsARun(s1, faults, order, round + 1, k);
      RoundThenRest(s, faults(round), Run(s1, DrainEvents(s1.tables, faults, order, round + 1)),
                    Drain(s1.tables, faults, round + 1), order, round, k);
    } else {
      LastRound(s, faults, order, round, k);
    }
  }

  lemma RoundThenRest(s: Store, f: Fault, s': Store, rest: Drained, order: Order, round: nat, k: Kind)
    requires Delivers(s.tables, f) && Drains(Popped(s, f, order(round, Slice(s.tables))), s', rest, order, round + 1, k)
    ensures Drains(s, s', rest.(sent := [Slice(s.tables)] + rest.sent), order, round, k)
  {
    hide Slice, AfterPop, Rows.Of, Rows.Plus, PopStops, Delivers;
    var sent := [Slice(s.tables)] + rest.sent;
    assert sent[0] == Slice(s.tables) && sent[1..] == rest.sent;
    assert s.slices + [Slice(s.tables)] + rest.sent == s.slices + sent;
    assert Answers(sent, order, round) == [order(round, sent[0])] + Answers(rest.sent, order, round + 1);
    hide Answers;
  }

  lemma StoppedDrainIs(t: Rows, faults: nat -> Fault, round: nat, k: Kind)
    requires !Delivers(t, faults(round))
    ensures var d, stop := Drain(t, faults, round), PopStops(faults(round).fails);
            d.sent == [] && d.left == AfterPop(t, faults(round).fails) && d.lost.Of(k) == Slice(t).Before(stop).Of(k)
  {
    var stop := PopStops(faults(round).fails);
    assert stop <= 4;
    assert t.IsEmpty() ==> Slice(t) == NO_ROWS;
    hide PopStops, Slice, AfterPop, Turn, Rows.Of;
  }

  lemma LastRound(s: Store, faults: nat -> Fault, order: Order, round: nat, k: Kind)
    requires !Delivers(s.tables, faults(round))
    ensures Drains(s, Popped(s, faults(round), order(round, Slice(s.tables))), Drain(s.tables, faults, round), order, round, k)
  {
    hide PopStops, Slice, AfterPop, Turn, Rows.Of, Rows.Plus, Rows.Before, Rows.IsEmpty, Drain, Delivers;
    StoppedDrainIs(s.tables, faults, round, k);
    RowsAt(s.lost, Slice(s.tables).Before(PopStops(faults(round).fails)), 0, k);
    assert Answers([], order, round) == [];
    hide Answers;
  }

  // --- the insert task in place --------------------------------------------------------------------------

  class TableDataVector {
    var measurement: seq<Row>
    var monitor: seq<Row>
    var alertTh: seq<Row>
    var alertAir: seq<Row>

    function View(): Rows
      reads this
    {
      Rows(measurement, monitor, alertTh, alertAir)
    }

    constructor ()
      ensures View() == NO_ROWS
    {
      measurement, monitor, alertTh, alertAir := [], [], [], [];
    }

    /** `sort_by_vectors` */
    method Sort(m: HubMessage)
      modifies this
      ensures View() == old(View()).Plus(Telemetry(m))
      ensures forall k :: View().Of(k) == old(View()).Of(k) + if Concerns(m, k) then [m.row] else []
    {
      match m {
        case Report(r) => measurement := measurement + [r];
        case MonitorData(r) => monitor := monitor + [r];
        case AlertAirData(r) => alertAir := alertAir + [r];
        case AlertTem(r) => alertTh := alertTh + [r];
        case NotTelemetry =>
      }
      assert View() == old(View()).Plus(Telemetry(m));
    }

    method Clear()
      modifies this
      ensures View() == NO_ROWS
    {
      measurement, alertAir, alertTh, monitor := [], [], [], [];
    }
  }

  /** The two telemetry arms of `dba_insert_task`. The ghost fields only remember the past. */
  class InsertTask {
    const tdv: TableDataVector
    const repo: Repository
    ghost var received: Rows
    ghost var forwarded: seq<Rows>
    ghost var slices: seq<Rows>
    ghost var lost: Rows

    ghost function Abstract(): Store
      reads this, tdv, repo
    {
      Store(repo.View(), tdv.View(), received, forwarded, slices, lost)
    }

    constructor ()
      ensures fresh(tdv) && fresh(repo)
      ensures Abstract() == NEW_STORE
    {
      received, forwarded, slices, lost := NO_ROWS, [], [], NO_ROWS;
      tdv := new TableDataVector();
      repo := new Repository();
    }

    method InsertAndClear(fails: set<Kind>)
      modifies this, tdv, repo
      ensures Abstract() == Flush(old(Abstract()), fails)
    {
      ghost var b := tdv.View();
      ghost var stop := FlushStops(b, fails);
      var _ := repo.Insert(tdv.View(), fails);
      tdv.Clear();
      InsertedRows(old(repo.View()), b, stop, repo.View());
      lost := lost.Plus(b.From(stop));
    }

    method OnTick(fails: set<Kind>)
      modifies this, tdv, repo
      ensures Abstract() == Step(old(Abstract()), Tick(fails))
      ensures tdv.View() == NO_ROWS
    {
      hide FlushStops, Rows.Plus, Rows.Before, Rows.From;
      if !tdv.View().IsEmpty() {
        InsertAndClear(fails);
      }
    }

    method OnHubMessage(m: HubMessage, fails: set<Kind>)
      modifies this, tdv, repo
      ensures Abstract() == Step(old(Abstract()), Message(m, fails))
      ensures (forall k :: |old(tdv.View()).Of(k)| < 48) ==>
                && repo.View() == old(repo.View())
                && forall k :: tdv.View().Of(k) == old(tdv.View()).Of(k) + if Concerns(m, k) then [m.row] else []
    {
      if forall k :: |tdv.View().Of(k)| < 48 {
        MessageFlushesIff(Abstract(), m, fails);
      }
      hide FlushStops, Concerns, Rows.Of;
      tdv.Sort(m);
      received := received.Plus(Telemetry(m));
      if SomeFull(tdv.View()) {
        InsertAndClear(fails);
      }
    }
  }

  lemma InsertedRows(tables: Rows, b: Rows, stop: nat, after: Rows)
    requires forall k :: after.Of(k) == tables.Of(k) + if Turn(k) < stop then b.Of(k) else []
    ensures after == tables.Plus(b.Before(stop))
  {
    assert forall k :: after.Of(k) == tables.Plus(b.Before(stop)).Of(k);
    assert after.Of(Measurement) == after.measurement && after.Of(Monitor) == after.monitor;
    assert after.Of(AlertTh) == after.alertTh && after.Of(AlertAir) == after.alertAir;
  }
}
