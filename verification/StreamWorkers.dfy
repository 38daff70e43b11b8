// One pass of the forwarder (backend/app/edge/stream/forwarder.py) and of the consumer
// (backend/app/cloud/stream/consumer.py), each proved to be a run of the stream protocol.
module StreamWorkers {
  import opened Prelude
  import opened Spool
  import opened Analytics
  import opened StreamPipeline

  // --- The forwarder's pass ---------------------------------------------------------

  function OfPriority(rows: seq<Record>, p: int): seq<Record> {
    if rows == [] then []
    else (if Priority(rows[0].kind) == p then [rows[0]] else []) + OfPriority(rows[1..], p)
  }

  function ByPriority(rows: seq<Record>): (all: seq<Record>)
    ensures |all| == |rows|
  {
    PrioritiesCoverRows(rows);
    OfPriority(rows, 0) + OfPriority(rows, 1) + OfPriority(rows, 2)
  }

  lemma {:induction false} OfPriorityExactly(rows: seq<Record>, p: int, last: int)
    requires Ordered(rows, last)
    ensures forall r :: r in OfPriority(rows, p) <==> r in rows && Priority(r.kind) == p
    ensures Ordered(OfPriority(rows, p), last)
  {
    if rows != [] {
      TailIsOrdered(rows, last);
      OfPriorityExactly(rows[1..], p, last);
      var tail := OfPriority(rows[1..], p);
      forall i | 0 <= i < |tail| ensures rows[0].number < tail[i].number {
        assert tail[i] in rows[1..];
      }
    }
  }

  lemma {:induction false} PrioritiesCoverRows(rows: seq<Record>)
    ensures |OfPriority(rows, 0)| + |OfPriority(rows, 1)| + |OfPriority(rows, 2)| == |rows|
  {
    if rows != [] { PrioritiesCoverRows(rows[1..]); }
  }

  ghost predicate Sorted(rows: seq<Record>) {
    forall i, j :: 0 <= i < j < |rows| ==> Earlier(rows[i], rows[j])
  }

  lemma JoinSorted(a: seq<Record>, b: seq<Record>)
    requires Sorted(a) && Sorted(b) && forall x, y :: x in a && y in b ==> Earlier(x, y)
    ensures Sorted(a + b)
  {
    var all := a + b;
    forall i, j | 0 <= i < j < |all| ensures Earlier(all[i], all[j]) {
      if i < |a| <= j { assert all[i] in a && all[j] in b; }
    }
  }

  lemma BlockIsSorted(rows: seq<Record>, p: int, last: int)
    requires Ordered(rows, last)
    ensures Sorted(OfPriority(rows, p)) && forall r :: r in OfPriority(rows, p) <==> r in rows && Priority(r.kind) == p
  {
    OfPriorityExactly(rows, p, last);
    var own := OfPriority(rows, p);
    forall i, j | 0 <= i < j < |own| ensures Earlier(own[i], own[j]) {
      assert own[i] in own && own[j] in own;
    }
  }

  lemma ByPriorityIsSorted(rows: seq<Record>, last: int)
    requires Ordered(rows, last)
    ensures Sorted(ByPriority(rows)) && forall r :: r in ByPriority(rows) <==> r in rows
  {
    BlockIsSorted(rows, 0, last);
    BlockIsSorted(rows, 1, last);
    BlockIsSorted(rows, 2, last);
    JoinSorted(OfPriority(rows, 0), OfPriority(rows, 1));
    JoinSorted(OfPriority(rows, 0) + OfPriority(rows, 1), OfPriority(rows, 2));
    assert forall r: Record :: Priority(r.kind) == 0 || Priority(r.kind) == 1 || Priority(r.kind) == 2;
  }

  lemma InPrefix(rows: seq<Record>, n: nat, i: nat)
    requires n <= |rows| && i < |rows|
    ensures i < n ==> rows[i] in rows[..n]
  {
    if i < n { assert rows[..n][i] == rows[i]; }
  }

  // The batch the query returns: gap markers, then safety events, then ticks, oldest first.
  lemma OldestBatch(rows: seq<Record>, last: int, size: nat)
    requires Ordered(rows, last)
    ensures IsOldestBatch(rows, size, ByPriority(rows)[..if size <= |rows| then size else |rows|])
  {
    ByPriorityIsSorted(rows, last);
    var all := ByPriority(rows);
    var n := if size <= |rows| then size else |rows|;
    forall r, b | r in rows && r !in all[..n] && b in all[..n] ensures Earlier(b, r) {
      var i :| 0 <= i < |all| && all[i] == r;
      var j :| 0 <= j < n && all[..n][j] == b;
      InPrefix(all, n, i);
      assert Earlier(all[j], all[i]);
    }
  }

  // What the batch order means: no record behind a gap marker's back, no tick before an event, and the
  // older of two alike first; ticks go out only once every gap marker and every event has.
  lemma BatchServesKinds(rows: seq<Record>, size: nat, batch: seq<Record>)
    requires IsOldestBatch(rows, size, batch)
    ensures forall i, j :: 0 <= i < j < |batch| ==>
              && (batch[j].kind == GapMarker ==> batch[i].kind == GapMarker)
              && (batch[i].kind == Telemetry ==> batch[j].kind == Telemetry)
              && (batch[i].kind == batch[j].kind || (IsEventKind(batch[i].kind) && IsEventKind(batch[j].kind)) ==>
                    batch[i].number < batch[j].number)
    ensures (exists b :: b in batch && b.kind == Telemetry) ==>
              forall r :: r in rows && r.kind != Telemetry ==> r in batch
    ensures (exists b :: b in batch && b.kind != GapMarker) ==>
              forall r :: r in rows && r.kind == GapMarker ==> r in batch
  {
    forall i, j | 0 <= i < j < |batch|
      ensures Earlier(batch[i], batch[j])
    {
    }
  }

  lemma ExtendPath(states: seq<State>, events: seq<Event>, e: Event, s': State)
    requires Path(states, events) && Next(states[|events|], e, s')
    ensures Path(states + [s'], events + [e])
  {
    var all, es := states + [s'], events + [e];
    forall i | 0 <= i < |es| ensures Next(all[i], es[i], all[i + 1]) {
      assert all[i] == states[i];
      if i < |events| {
        assert Next(states[i], events[i], states[i + 1]);
        assert es[i] == events[i] && all[i + 1] == states[i + 1];
      } else {
        assert es[i] == e && all[i + 1] == s';
      }
    }
  }

  // --- Histories after one enforcement of the limit

  ghost function ById(rows: seq<Record>): map<string, Record> {
    if rows == [] then map[] else ById(rows[..|rows| - 1])[rows[|rows| - 1].eventId := rows[|rows| - 1]]
  }

  ghost predicate HaveDistinctIds(rows: seq<Record>) {
    forall i, j :: 0 <= i < j < |rows| ==> rows[i].eventId != rows[j].eventId
  }

  lemma {:induction false} ByIdExactly(rows: seq<Record>)
    requires HaveDistinctIds(rows)
    ensures forall id :: id in ById(rows) <==> exists i :: 0 <= i < |rows| && rows[i].eventId == id
    ensures forall i :: 0 <= i < |rows| ==> ById(rows)[rows[i].eventId] == rows[i]
  {
    if rows != [] { ByIdExactly(rows[..|rows| - 1]); }
  }

  // The gap record of a machine.
  ghost function MarkerOf(markers: seq<Record>, machineId: string): string {
    if exists k :: 0 <= k < |markers| && markers[k].machineId == machineId
    then (var k :| 0 <= k < |markers| && markers[k].machineId == machineId; markers[k].eventId)
    else ""
  }

  ghost function CountedUnder(removed: seq<Record>, markers: seq<Record>): map<string, string> {
    if removed == [] then map[]
    else
      var r := removed[|removed| - 1];
      CountedUnder(removed[..|removed| - 1], markers)[r.eventId := MarkerOf(markers, r.machineId)]
  }

  lemma {:induction false} CountedUnderKeys(removed: seq<Record>, markers: seq<Record>)
    ensures forall id :: id in CountedUnder(removed, markers) <==>
              exists i :: 0 <= i < |removed| && removed[i].eventId == id
  {
    if removed != [] { CountedUnderKeys(removed[..|removed| - 1], markers); }
  }

  lemma {:induction false} CountedUnderAt(removed: seq<Record>, markers: seq<Record>, i: nat)
    requires HaveDistinctIds(removed) && i < |removed|
    ensures removed[i].eventId in CountedUnder(removed, markers)
    ensures CountedUnder(removed, markers)[removed[i].eventId] == MarkerOf(markers, removed[i].machineId)
  {
    if i < |removed| - 1 { CountedUnderAt(removed[..|removed| - 1], markers, i); }
  }

  ghost function AfterEnforcing(s: State, removed: seq<Record>, gaps: seq<Gap>, rows': seq<Record>): State
    requires |gaps| <= |rows'|
  {
    var markers := rows'[|rows'| - |gaps|..];
    s.(rows := rows', last := s.last + |gaps|, spooled := s.spooled + ById(markers),
       dropped := s.dropped + CountedUnder(removed, markers))
  }

  lemma RemovedIsCountedBy(removed: seq<Record>, gaps: seq<Gap>, markers: seq<Record>, last: int, i: nat)
    requires GapsAreExact(removed, gaps) && AreGapRecords(markers, gaps, last) && i < |removed|
    ensures CountedBy(markers, removed[i], MarkerOf(markers, removed[i].machineId))
  {
    assert HasGap(gaps, removed[i].machineId);
    var k :| 0 <= k < |gaps| && gaps[k].machineId == removed[i].machineId;
    assert markers[k].machineId == removed[i].machineId;
  }

  lemma HistoryGrows(spooled: map<string, Record>, markers: seq<Record>)
    requires HaveDistinctIds(markers) && forall i :: 0 <= i < |markers| ==> markers[i].eventId !in spooled
    ensures EntersHistory(spooled, markers, spooled + ById(markers))
  {
    ByIdExactly(markers);
  }

  lemma DropsGrow(dropped: map<string, string>, removed: seq<Record>, gaps: seq<Gap>, markers: seq<Record>, last: int)
    requires HaveDistinctIds(removed) && forall i :: 0 <= i < |removed| ==> removed[i].eventId !in dropped
    requires GapsAreExact(removed, gaps) && AreGapRecords(markers, gaps, last)
    ensures EntersDrops(dropped, removed, markers, dropped + CountedUnder(removed, markers))
  {
    CountedUnderKeys(removed, markers);
    var added := CountedUnder(removed, markers);
    forall i | 0 <= i < |removed|
      ensures removed[i].eventId in added && CountedBy(markers, removed[i], added[removed[i].eventId])
    {
      CountedUnderAt(removed, markers, i);
      RemovedIsCountedBy(removed, gaps, markers, last, i);
    }
  }

  lemma RemovedAreNew(s: State, removed: seq<Record>)
    requires SpoolSound(s) && LossSound(s) && Ordered(removed, s.last) && forall r :: r in removed ==> r in s.rows
    ensures HaveDistinctIds(removed) && forall i :: 0 <= i < |removed| ==> removed[i].eventId !in s.dropped
  {
    forall i, j | 0 <= i < j < |removed| ensures removed[i].eventId != removed[j].eventId {
      DistinctIds(removed, s.spooled, s.last, i, j);
    }
    forall i | 0 <= i < |removed| ensures removed[i].eventId !in s.dropped {
      NotYetDropped(s, removed, i);
    }
  }

  lemma EnforcingReplaces(s: State, max: nat, low: real, gaps: seq<Gap>, rows': seq<Record>)
    requires SpoolSound(s) && LossSound(s) && LimitEnforced(s.rows, s.last, max, low, rows', Ok(gaps))
    requires |gaps| <= |rows'| && HaveDistinctIds(rows'[|rows'| - |gaps|..])
    requires forall i :: |rows'| - |gaps| <= i < |rows'| ==> rows'[i].eventId !in s.spooled
    ensures var removed := Removed(s.rows, max, low);
            Replaces(s, removed, rows'[|rows'| - |gaps|..], AfterEnforcing(s, removed, gaps, rows'))
  {
    var removed := Removed(s.rows, max, low);
    var markers := rows'[|rows'| - |gaps|..];
    RemovedAreTicks(s.rows, s.last, max, low);
    RemovedAreNew(s, removed);
    EnforcedRows(s, max, low, gaps, rows');
    HistoryGrows(s.spooled, markers);
    DropsGrow(s.dropped, removed, gaps, markers, s.last);
  }

  lemma IsEnforceStep(s: State, max: nat, low: real, gaps: seq<Gap>, rows': seq<Record>, s': State)
    requires s.batch == [] && LimitEnforced(s.rows, s.last, max, low, rows', Ok(gaps)) && |gaps| <= |rows'|
    requires s' == AfterEnforcing(s, Removed(s.rows, max, low), gaps, rows')
    requires Replaces(s, Removed(s.rows, max, low), rows'[|rows'| - |gaps|..], s')
    ensures Next(s, EnforceLimit(max, low, gaps), s')
  {
  }

  // Any accepted outcome of enforce_limit, with fresh event ids, is a step of the protocol.
  lemma EnforcingIsAStep(s: State, max: nat, low: real, gaps: seq<Gap>, rows': seq<Record>) returns (s': State)
    requires SpoolSound(s) && LossSound(s) && s.batch == []
    requires LimitEnforced(s.rows, s.last, max, low, rows', Ok(gaps))
    requires |gaps| <= |rows'| && HaveDistinctIds(rows'[|rows'| - |gaps|..])
    requires forall i :: |rows'| - |gaps| <= i < |rows'| ==> rows'[i].eventId !in s.spooled
    ensures Next(s, EnforceLimit(max, low, gaps), s')
    ensures s'.rows == rows' && s'.last == s.last + |gaps| && s'.logs == s.logs && s'.batch == []
  {
    s' := AfterEnforcing(s, Removed(s.rows, max, low), gaps, rows');
    EnforcingReplaces(s, max, low, gaps, rows');
    IsEnforceStep(s, max, low, gaps, rows', s');
  }

  // What happens to one batch: the broker writes during the pass, which sends are acknowledged in
  // time, and whether the delete fails.
  datatype Write = Write(index: nat, partition: int)

  datatype Outcome = Outcome(writes: seq<Write>, acked: seq<bool>, deleteFails: bool)

  // An acknowledged record is in the broker's log.
  ghost predicate Honest(o: Outcome) {
    && (forall w :: w in o.writes ==> w.index < |o.acked|)
    && forall i :: 0 <= i < |o.acked| && o.acked[i] ==> exists k :: 0 <= k < |o.writes| && o.writes[k].index == i
  }

  predicate AnyFailed(o: Outcome) { exists i :: 0 <= i < |o.acked| && !o.acked[i] }

  predicate RolledBack(o: Outcome, done: nat) { o.deleteFails && done > 0 }

  // The pass reads a batch first and settles it last.
  predicate IsDrain(events: seq<Event>, size: nat, o: Outcome, done: nat) {
    && |events| >= 2 && events[0] == ReadBatch(size)
    && events[|events| - 1] == if RolledBack(o, done) then ForwarderStops else DeleteAcknowledged(o.acked)
  }

  datatype PassResult = Raised | Acknowledged(count: nat)

  // Seconds to wait after the given number of failed attempts in a row.
  function Delay(attempts: nat, backoffMax: real): (d: real)
    requires attempts > 0
  {
    Min(Power(attempts - 1), backoffMax)
  }

  function Power(n: nat): real { if n == 0 then 1.0 else 2.0 * Power(n - 1) }

  // The connection and backoff part of the forwarder.
  datatype Backoff = Backoff(connected: bool, attempts: nat, retryAt: real)

  // What a pass does to it: nothing; a failed connection or send at some time; a connection but no
  // settled send (nothing to send, or the delete fails); or a send that was fully acknowledged.
  datatype Try = Skipped | Failed(clock: real) | Connected | Sent

  function AfterPass(b: Backoff, t: Try, backoffMax: real): Backoff {
    match t
    case Skipped => b
    case Failed(clock) => Backoff(false, b.attempts + 1, clock + Delay(b.attempts + 1, backoffMax))
    case Connected => b.(connected := true)
    case Sent => Backoff(true, 0, b.retryAt)
  }

  function AfterPasses(b: Backoff, tries: seq<Try>, backoffMax: real): Backoff {
    if tries == [] then b
    else AfterPass(AfterPasses(b, tries[..|tries| - 1], backoffMax), tries[|tries| - 1], backoffMax)
  }

  // The failures after the last fully acknowledged send; passes that send nothing count neither way.
  function FailuresInARow(tries: seq<Try>): nat {
    if tries == [] || tries[|tries| - 1].Sent? then 0
    else FailuresInARow(tries[..|tries| - 1]) + if tries[|tries| - 1].Failed? then 1 else 0
  }

  lemma {:induction false} DelayGrows(m: nat, n: nat, backoffMax: real)
    requires 0 < m <= n
    ensures Power(m - 1) <= Power(n - 1) && Delay(m, backoffMax) <= Delay(n, backoffMax) <= backoffMax
  {
    if m < n {
      DelayGrows(m, n - 1, backoffMax);
      PowerIsPositive(n - 2);
    }
  }

  lemma {:induction false} PowerIsPositive(n: nat)
    ensures Power(n) >= 1.0
  {
    if n > 0 { PowerIsPositive(n - 1); }
  }

  lemma {:induction false} AttemptsAreFailures(b: Backoff, tries: seq<Try>, backoffMax: real)
    requires b.attempts == 0
    ensures AfterPasses(b, tries, backoffMax).attempts == FailuresInARow(tries)
  {
    if tries != [] { AttemptsAreFailures(b, tries[..|tries| - 1], backoffMax); }
  }

  // Over any passes: the wait after a failure doubles with every failure since the last fully
  // acknowledged send and never exceeds the maximum; an earlier failure of the same row waited no
  // longer.
  lemma BackoffIsExponential(b: Backoff, before: seq<Try>, clock: real, backoffMax: real)
    requires b.attempts == 0
    ensures var after := AfterPasses(b, before + [Failed(clock)], backoffMax);
            var wait := Min(Power(FailuresInARow(before)), backoffMax);
            && !after.connected && after.retryAt == clock + wait && wait <= backoffMax
            && forall m :: 0 < m <= FailuresInARow(before) ==> Delay(m, backoffMax) <= wait
  {
    var tries := before + [Failed(clock)];
    assert tries[..|tries| - 1] == before;
    AttemptsAreFailures(b, before, backoffMax);
    var n := FailuresInARow(before);
    forall m | 0 < m <= n ensures Delay(m, backoffMax) <= Delay(n + 1, backoffMax) {
      DelayGrows(m, n + 1, backoffMax);
    }
  }

  ghost predicate Drains(events: seq<Event>, size: nat, o: Outcome, result: PassResult) {
    exists sent: nat ::
      IsDrain(events, size, o, sent) && result == if RolledBack(o, sent) then Raised else Acknowledged(sent)
  }

  lemma AckedAreLogged(batch: seq<Record>, o: Outcome, logs: map<int, seq<Record>>)
    requires Honest(o) && |batch| == |o.acked|
    requires forall k :: 0 <= k < |o.writes| ==> InSomeLog(logs, batch[o.writes[k].index])
    ensures forall i :: 0 <= i < |o.acked| && o.acked[i] ==> InSomeLog(logs, batch[i])
  {
    forall i | 0 <= i < |o.acked| && o.acked[i] ensures InSomeLog(logs, batch[i]) {
      var k :| 0 <= k < |o.writes| && o.writes[k].index == i;
    }
  }

  lemma ReadingIsAStep(s: State, size: nat, batch: seq<Record>) returns (s': State)
    requires s.batch == [] && Ordered(s.rows, s.last)
    requires batch == ByPriority(s.rows)[..if size <= |s.rows| then size else |s.rows|]
    ensures Next(s, ReadBatch(size), s')
    ensures s'.rows == s.rows && s'.last == s.last && s'.logs == s.logs && s'.batch == batch
    ensures forall r :: r in batch ==> r in s'.sent
  {
    OldestBatch(s.rows, s.last, size);
    s' := s.(batch := batch, sent := s.sent + set r | r in batch);
  }

  class Forwarder {
    const spool: SpoolTable
    var logs: map<int, seq<Record>>     // the broker
    var connected: bool
    var attempts: nat
    var retryAt: real
    var sentTotal: nat
    var failedTotal: nat
    var droppedTotal: nat
    var gapsTotal: nat

    constructor (spool: SpoolTable) { this.spool := spool; }

    ghost predicate Shows(s: State)
      reads this, spool
    {
      spool.rows == s.rows && spool.last == s.last && logs == s.logs
    }

    // The broker takes the writes of a pass, in order.
    method Deliver(batch: seq<Record>, writes: seq<Write>, ghost s0: State)
      returns (ghost states: seq<State>, ghost events: seq<Event>)
      requires Shows(s0) && forall r :: r in batch ==> r in s0.sent
      requires forall w :: w in writes ==> w.index < |batch|
      modifies this`logs
      ensures Path(states, events) && states[0] == s0 && states[|events|] == s0.(logs := logs)
      ensures forall k :: 0 <= k < |writes| ==> InSomeLog(logs, batch[writes[k].index])
    {
      states, events := [s0], [];
      for k := 0 to |writes|
        invariant Path(states, events) && states[0] == s0 && states[|events|] == s0.(logs := logs)
        invariant forall j :: 0 <= j < k ==> InSomeLog(logs, batch[writes[j].index])
      {
        assert writes[k] in writes;
        var r, p := batch[writes[k].index], writes[k].partition;
        LogGrows(logs, p, r);
        ghost var s' := states[|events|].(logs := logs[p := LogOf(logs, p) + [r]]);
        ExtendPath(states, events, BrokerAppends(p, r), s');
        states, events := states + [s'], events + [BrokerAppends(p, r)];
        logs := logs[p := LogOf(logs, p) + [r]];
      }
    }

    // Delete what was acknowledged, in one transaction that may fail.
    method Settle(batch: seq<Record>, o: Outcome, ghost s0: State)
      returns (sent: nat, failed: bool, ghost e: Event, ghost s1: State)
      requires Shows(s0) && s0.batch == batch && |o.acked| == |batch|
      requires forall i :: 0 <= i < |o.acked| && o.acked[i] ==> InSomeLog(logs, batch[i])
      modifies this`sentTotal, this`failedTotal, spool`rows
      ensures Next(s0, e, s1) && Shows(s1) && s1.batch == []
      ensures e == if RolledBack(o, sent) then ForwarderStops else DeleteAcknowledged(o.acked)
      ensures failed <==> AnyFailed(o)
      ensures sent == |ClearNumbers(batch, o.acked, |batch|)| <= |batch|
      ensures RolledBack(o, sent) ==> spool.rows == old(spool.rows)
      ensures !RolledBack(o, sent) ==>
                spool.rows == Without(old(spool.rows), set n | n in ClearNumbers(batch, o.acked, |batch|))
      ensures sentTotal == old(sentTotal) + if RolledBack(o, sent) then 0 else sent
      ensures failedTotal == old(failedTotal) + if failed && !RolledBack(o, sent) then |batch| - sent else 0
    {
      var done := AcknowledgedPrefix(batch, o.acked);
      sent := |done|;
      ClearNumbersFit(batch, o.acked, |batch|);
      failed := AnyFailed(o);
      if RolledBack(o, sent) {
        e, s1 := ForwarderStops, s0.(batch := []);
      } else {
        spool.rows := Without(spool.rows, set n | n in done);
        sentTotal := sentTotal + sent;
        if failed { failedTotal := failedTotal + |batch| - sent; }
        e, s1 := DeleteAcknowledged(o.acked), s0.(rows := spool.rows, batch := []);
      }
    }

    // Read, send, delete.
    method Drain(size: nat, o: Outcome, ghost s0: State)
      returns (sent: nat, failed: bool, ghost states: seq<State>, ghost events: seq<Event>)
      requires Shows(s0) && Ordered(spool.rows, spool.last) && s0.batch == []
      requires Honest(o) && |o.acked| == (if size <= |spool.rows| then size else |spool.rows|)
      modifies this`logs, this`sentTotal, this`failedTotal, spool`rows
      ensures Path(states, events) && states[0] == s0 && Shows(states[|events|]) && states[|events|].batch == []
      ensures IsDrain(events, size, o, sent)
      ensures failed <==> AnyFailed(o)
      ensures var batch := ByPriority(old(spool.rows))[..|o.acked|];
              && sent == |ClearNumbers(batch, o.acked, |batch|)| <= |batch|
              && (RolledBack(o, sent) ==> spool.rows == old(spool.rows))
              && (!RolledBack(o, sent) ==>
                    spool.rows == Without(old(spool.rows), set n | n in ClearNumbers(batch, o.acked, |batch|)))
      ensures sentTotal == old(sentTotal) + if RolledBack(o, sent) then 0 else sent
      ensures failedTotal == old(failedTotal) + if failed && !RolledBack(o, sent) then |o.acked| - sent else 0
    {
      var batch := ByPriority(spool.rows)[..|o.acked|];
      ghost var reading := ReadingIsAStep(s0, size, batch);
      states, events := Deliver(batch, o.writes, reading);
      AckedAreLogged(batch, o, logs);
      ghost var e, s1;
      sent, failed, e, s1 := Settle(batch, o, states[|events|]);
      ExtendPath(states, events, e, s1);
      states, events := states + [s1], events + [e];
      PrependPath(s0, ReadBatch(size), states, events);
      states, events := [s0] + states, [ReadBatch(size)] + events;
    }

    // The limit, which runs even while offline.
    method Enforce(maxRecords: nat, lowWater: real, newIds: seq<string>, ghost past: seq<State>, ghost done: seq<Event>)
      returns (ok: bool, ghost s1: State, ghost e: Event)
      requires IsRun(past, done) && Shows(past[|done|]) && past[|done|].batch == []
      requires |newIds| >= |spool.rows| && FreshIds(newIds, past[|done|].spooled)
      modifies spool`rows, spool`last, this`droppedTotal, this`gapsTotal
      ensures ok <==> LimitAccepted(old(spool.rows), maxRecords, lowWater)
      ensures ok ==> IsRun(past + [s1], done + [e]) && Shows(s1) && s1.batch == []
      ensures ok ==> e.EnforceLimit? && e.maxRecords == maxRecords && e.lowWater == lowWater
      ensures ok ==>
                LimitTakesOldest(old(spool.rows), maxRecords, lowWater, spool.rows, droppedTotal - old(droppedTotal))
      ensures !ok ==>
                spool.rows == old(spool.rows) && spool.last == old(spool.last) && droppedTotal == old(droppedTotal)
    {
      RunIsOrdered(past, done);
      ghost var s0 := past[|done|];
      var outcome := spool.EnforceLimit(maxRecords, lowWater, newIds);
      ok := outcome.Ok?;
      LimitCounts(s0.rows, s0.last, maxRecords, lowWater, spool.rows, outcome);
      s1, e := s0, ForwarderStops;
      if ok {
        gapsTotal := gapsTotal + |outcome.value|;
        droppedTotal := droppedTotal + Total(outcome.value);
        s1 := EnforcingRun(past, done, maxRecords, lowWater, outcome.value, spool.rows, newIds);
        e := EnforceLimit(maxRecords, lowWater, outcome.value);
      }
    }

    ghost function Retry(): Backoff
      reads this
    {
      Backoff(connected, attempts, retryAt)
    }

    // A failure closes the producer and backs off.
    method ScheduleRetry(clock: real, backoffMax: real)
      modifies this`connected, this`attempts, this`retryAt
      ensures Retry() == AfterPass(old(Retry()), Failed(clock), backoffMax)
    {
      connected := false;
      attempts := attempts + 1;
      retryAt := clock + Delay(attempts, backoffMax);
    }

    // The producer, connected if need be; connects: whether the broker answers.
    method Connect(connects: bool, clock: real, backoffMax: real) returns (linked: bool)
      modifies this`connected, this`attempts, this`retryAt
      ensures linked <==> old(connected) || connects
      ensures Retry() == AfterPass(old(Retry()), if linked then Connected else Failed(clock), backoffMax)
    {
      linked := connected || connects;
      if linked { connected := true; } else { ScheduleRetry(clock, backoffMax); }
    }

    method Conclude(failed: bool, clock: real, backoffMax: real)
      requires connected
      modifies this`connected, this`attempts, this`retryAt
      ensures Retry() == AfterPass(old(Retry()), if failed then Failed(clock) else Sent, backoffMax)
    {
      if failed { ScheduleRetry(clock, backoffMax); } else { attempts := 0; }
    }

    // Read, send, delete and back off. The new events are a drain, or none when there is nothing to
    // send.
    method Forward(clock: real, backoffMax: real, size: nat, replies: nat -> Outcome,
                   ghost past: seq<State>, ghost done: seq<Event>)
      returns (result: PassResult, count: nat, ghost states: seq<State>, ghost events: seq<Event>,
               ghost more: seq<Event>)
      requires IsRun(past, done) && Shows(past[|done|]) && past[|done|].batch == [] && connected
      requires forall n :: |replies(n).acked| == n && Honest(replies(n))
      modifies this, spool`rows
      ensures IsRun(states, events) && Shows(states[|events|]) && states[|events|].batch == [] && events == done + more
      ensures count == if size <= |old(spool.rows)| then size else |old(spool.rows)|
      ensures count == 0 ==> more == [] && result == Acknowledged(0) && spool.rows == old(spool.rows)
      ensures count > 0 ==> Drains(more, size, replies(count), result)
      ensures result.Acknowledged? ==> sentTotal == old(sentTotal) + result.count
      ensures Retry() == AfterPass(old(Retry()), SendTry(result, replies(count), count, clock), backoffMax)
    {
      states, events, more := past, done, [];
      count := if size <= |spool.rows| then size else |spool.rows|;
      if count == 0 { return Acknowledged(0), count, states, events, more; }
      RunIsOrdered(past, done);
      var reply := replies(count);
      var sent, failed;
      ghost var path;
      sent, failed, path, more := Drain(size, reply, past[|done|]);
      JoinRuns(past, done, path, more);
      states, events := past + path[1..], done + more;
      if RolledBack(reply, sent) { return Raised, count, states, events, more; }
      Conclude(failed, clock, backoffMax);
      result := Acknowledged(sent);
    }

    // One pass. replies: what happens when n records are sent; clock: the time of a failure. A pass
    // that is not refused enforces the limit, and then, when the link is up, the backoff is over and
    // the broker connects, drains a batch.
    method RunOnce(now: real, clock: real, backoffMax: real, maxRecords: nat, lowWater: real, newIds: seq<string>,
                   size: nat, reachable: bool, connects: bool, replies: nat -> Outcome,
                   ghost past: seq<State>, ghost done: seq<Event>)
      returns (result: PassResult, count: nat, ghost states: seq<State>, ghost events: seq<Event>,
               ghost drained: seq<Event>)
      requires IsRun(past, done) && Shows(past[|done|]) && past[|done|].batch == []
      requires |newIds| >= |spool.rows| && FreshIds(newIds, past[|done|].spooled)
      requires forall n :: |replies(n).acked| == n && Honest(replies(n))
      modifies this, spool`rows, spool`last
      ensures IsRun(states, events) && Shows(states[|events|]) && states[|events|].batch == []
      ensures !LimitAccepted(old(spool.rows), maxRecords, lowWater) ==> result.Raised? && spool.rows == old(spool.rows)
      ensures LimitAccepted(old(spool.rows), maxRecords, lowWater) ==>
                exists gaps :: events == done + [EnforceLimit(maxRecords, lowWater, gaps)] + drained
      ensures !reachable || now < old(retryAt) || (!old(connected) && !connects) ==>
                count == 0 && logs == old(logs) && (result.Raised? || result == Acknowledged(0))
      ensures count == 0 ==> drained == []
      ensures count > 0 ==> Drains(drained, size, replies(count), result)
      ensures count == 0 && size > 0 && spool.rows != [] ==>
                !Drained(LimitAccepted(old(spool.rows), maxRecords, lowWater), reachable && now >= old(retryAt),
                         old(connected) || connects)
      ensures var sent := SendTry(result, replies(count), count, clock);
              Retry() == AfterPass(old(Retry()), PassTry(LimitAccepted(old(spool.rows), maxRecords, lowWater),
                                                         reachable && now >= old(retryAt),
                                                         old(connected) || connects, sent, clock), backoffMax)
      ensures result.Acknowledged? ==> sentTotal == old(sentTotal) + result.count
    {
      var ok;
      ghost var s1, e;
      ok, s1, e := Enforce(maxRecords, lowWater, newIds, past, done);
      states, events, drained := past, done, [];
      count := 0;
      if !ok { return Raised, count, states, events, drained; }
      states, events := past + [s1], done + [e];
      assert events + [] == events;
      if !reachable || now < retryAt { return Acknowledged(0), count, states, events, drained; }
      var linked := Connect(connects, clock, backoffMax);
      if !linked { return Acknowledged(0), count, states, events, drained; }
      result, count, states, events, drained := Forward(clock, backoffMax, size, replies, states, events);
    }
  }

  // A send that was not fully acknowledged makes the forwarder back off, unless the delete failed first.
  function SendTry(result: PassResult, o: Outcome, count: nat, clock: real): Try {
    if count == 0 || result.Raised? then Connected
    else if AnyFailed(o) then Failed(clock)
    else Sent
  }

  function PassTry(limited: bool, due: bool, linked: bool, send: Try, clock: real): Try {
    if !limited || !due then Skipped else if !linked then Failed(clock) else send
  }

  // The pass gets as far as reading a batch.
  predicate Drained(limited: bool, due: bool, linked: bool) { limited && due && linked }

  // What a pass makes of connection and backoff: nothing when it is refused, not due or sends
  // nothing; a fresh start when every record was acknowledged; one failure more when the broker did
  // not answer or left some out; and after a delete that rolls back, only the connection stands.
  lemma BackoffAfterPass(b: Backoff, limited: bool, due: bool, linked: bool, result: PassResult, o: Outcome,
                         count: nat, clock: real, backoffMax: real)
    ensures var send := SendTry(result, o, count, clock);
            var after := AfterPass(b, PassTry(limited, due, linked, send, clock), backoffMax);
            var tried, stored := limited && due, count > 0 && result.Acknowledged?;
            && (!tried ==> after == b)
            && (tried && linked && !stored ==> after == b.(connected := true))
            && (tried && linked && stored && (forall i :: 0 <= i < |o.acked| ==> o.acked[i]) ==>
                  after.connected && after.attempts == 0)
            && (tried && (!linked || (stored && exists i :: 0 <= i < |o.acked| && !o.acked[i])) ==>
                  && !after.connected && after.attempts == b.attempts + 1
                  && after.retryAt == clock + Min(Power(b.attempts), backoffMax))
  {
  }

  lemma JoinRuns(states: seq<State>, events: seq<Event>, more: seq<State>, moreEvents: seq<Event>)
    requires IsRun(states, events) && Path(more, moreEvents) && more[0] == states[|events|]
    ensures IsRun(states + more[1..], events + moreEvents)
    ensures (states + more[1..])[|events| + |moreEvents|] == more[|moreEvents|]
  {
    JoinPaths(states, events, more, moreEvents);
  }

  lemma JoinPaths(states: seq<State>, events: seq<Event>, more: seq<State>, moreEvents: seq<Event>)
    requires Path(states, events) && Path(more, moreEvents) && more[0] == states[|events|]
    ensures Path(states + more[1..], events + moreEvents)
    ensures (states + more[1..])[|events| + |moreEvents|] == more[|moreEvents|]
  {
    var all, es := states + more[1..], events + moreEvents;
    forall i | 0 <= i < |es| ensures Next(all[i], es[i], all[i + 1]) {
      if i < |events| {
        assert Next(states[i], events[i], states[i + 1]);
      } else {
        var j := i - |events|;
        assert Next(more[j], moreEvents[j], more[j + 1]);
      }
    }
  }

  ghost predicate IsRun(states: seq<State>, events: seq<Event>) {
    Path(states, events) && states[0] == EMPTY
  }

  lemma RunIsSound(states: seq<State>, events: seq<Event>)
    requires IsRun(states, events)
    ensures Inv(states[|events|])
  {
    EmptyIsSound();
    PathIsSound(states, events);
  }

  lemma RunIsOrdered(states: seq<State>, events: seq<Event>)
    requires IsRun(states, events)
    ensures Ordered(states[|events|].rows, states[|events|].last)
  {
    RunIsSound(states, events);
  }

  // Within the limit, or the low-water share is not above the backlog (that would be a negative LIMIT).
  predicate LimitAccepted(rows: seq<Record>, maxRecords: nat, lowWater: real) {
    |Ticks(rows)| <= maxRecords || maxRecords as real * lowWater < (|Ticks(rows)| + 1) as real
  }

  // The oldest count ticks are gone: down to the low-water level, or none within the limit.
  ghost predicate LimitTakesOldest(rows: seq<Record>, maxRecords: nat, lowWater: real, rows': seq<Record>, count: int) {
    && 0 <= count <= |Ticks(rows)| && Ticks(rows') == Ticks(rows)[count..]
    && if |Ticks(rows)| <= maxRecords then count == 0 else IsLowWater(|Ticks(rows')|, maxRecords, lowWater)
  }

  lemma LimitCounts(rows: seq<Record>, last: int, maxRecords: nat, lowWater: real,
                    rows': seq<Record>, outcome: Result<seq<Gap>, LimitError>)
    requires Ordered(rows, last) && LimitEnforced(rows, last, maxRecords, lowWater, rows', outcome)
    ensures outcome.Ok? <==> LimitAccepted(rows, maxRecords, lowWater)
    ensures outcome.Err? ==> rows' == rows
    ensures outcome.Ok? ==> LimitTakesOldest(rows, maxRecords, lowWater, rows', Total(outcome.value))
  {
    if |Ticks(rows)| > maxRecords { LimitDropsOldestTicks(rows, last, maxRecords, lowWater, rows', outcome); }
  }

  lemma EnforcingRun(past: seq<State>, done: seq<Event>, max: nat, low: real, gaps: seq<Gap>, rows': seq<Record>,
                     newIds: seq<string>)
    returns (s1: State)
    requires IsRun(past, done) && past[|done|].batch == []
    requires LimitEnforced(past[|done|].rows, past[|done|].last, max, low, rows', Ok(gaps))
    requires |gaps| <= |rows'| && UsesIds(rows'[|rows'| - |gaps|..], newIds) && FreshIds(newIds, past[|done|].spooled)
    ensures IsRun(past + [s1], done + [EnforceLimit(max, low, gaps)])
    ensures var s0 := past[|done|];
            s1.rows == rows' && s1.last == s0.last + |gaps| && s1.logs == s0.logs && s1.batch == []
  {
    var s0 := past[|done|];
    RunIsSound(past, done);
    MarkersAreFresh(rows', |gaps|, newIds, s0.spooled);
    s1 := EnforcingIsAStep(s0, max, low, gaps, rows');
    ExtendPath(past, done, EnforceLimit(max, low, gaps), s1);
  }

  lemma MarkersAreFresh(rows: seq<Record>, n: nat, newIds: seq<string>, spooled: map<string, Record>)
    requires n <= |rows| && UsesIds(rows[|rows| - n..], newIds) && FreshIds(newIds, spooled)
    ensures HaveDistinctIds(rows[|rows| - n..])
    ensures forall i :: |rows| - n <= i < |rows| ==> rows[i].eventId !in spooled
  {
    var markers := rows[|rows| - n..];
    forall i | |rows| - n <= i < |rows| ensures rows[i].eventId !in spooled {
      assert rows[i] == markers[i - (|rows| - n)];
    }
  }

  ghost predicate FreshIds(newIds: seq<string>, spooled: map<string, Record>) {
    && (forall i, j :: 0 <= i < j < |newIds| ==> newIds[i] != newIds[j])
    && forall i :: 0 <= i < |newIds| ==> newIds[i] !in spooled
  }

  lemma PrependPath(s: State, e: Event, states: seq<State>, events: seq<Event>)
    requires Path(states, events) && Next(s, e, states[0])
    ensures Path([s] + states, [e] + events)
  {
    var all, es := [s] + states, [e] + events;
    forall i | 0 <= i < |es| ensures Next(all[i], es[i], all[i + 1]) {
      if i > 0 { assert Next(states[i - 1], events[i - 1], states[i]); }
    }
  }

  lemma {:induction false} ClearNumbersFit(rows: seq<Record>, acked: seq<bool>, n: nat)
    requires |rows| == |acked| && n <= |rows|
    ensures |ClearNumbers(rows, acked, n)| <= n
  {
    if n > 0 { ClearNumbersFit(rows, acked, n - 1); }
  }

  // --- The consumer's poll ----------------------------------------------------------

  lemma RunRollupsAgree(states: seq<State>, events: seq<Event>)
    requires IsRun(states, events)
    ensures var store := states[|events|].store; RollupsAgree(store.archive, store.rollups)
  {
    RunIsSound(states, events);
  }

  lemma PollingRun(past: seq<State>, done: seq<Event>, records: seq<Record>, upTo: map<int, nat>)
    returns (s1: State)
    requires IsRun(past, done) && past[|done|].phase == Ready
    requires Polls(past[|done|].logs, past[|done|].committed, records, upTo)
    ensures s1 == past[|done|].(phase := Polled(records, upTo)) && IsRun(past + [s1], done + [Poll(records, upTo)])
  {
    s1 := past[|done|].(phase := Polled(records, upTo));
    ExtendPath(past, done, Poll(records, upTo), s1);
  }

  lemma StoringRun(past: seq<State>, done: seq<Event>, after: Store) returns (s1: State)
    requires IsRun(past, done) && past[|done|].phase.Polled?
    requires Stores(past[|done|].store, past[|done|].phase.records, after)
    ensures s1 == past[|done|].(store := after, phase := Stored(past[|done|].phase.upTo))
    ensures IsRun(past + [s1], done + [StoreBatch])
  {
    s1 := past[|done|].(store := after, phase := Stored(past[|done|].phase.upTo));
    ExtendPath(past, done, StoreBatch, s1);
  }

  lemma EndingRun(past: seq<State>, done: seq<Event>, commits: bool) returns (s1: State, e: Event)
    requires IsRun(past, done) && (commits ==> past[|done|].phase.Stored?)
    ensures IsRun(past + [s1], done + [e])
    ensures var s0 := past[|done|];
            s1 == if commits then s0.(committed := s0.committed + s0.phase.upTo, phase := Ready)
                  else s0.(phase := Ready)
  {
    var s0 := past[|done|];
    e := if commits then CommitOffsets else ConsumerFails;
    s1 := if commits then s0.(committed := s0.committed + s0.phase.upTo, phase := Ready) else s0.(phase := Ready);
    ExtendPath(past, done, e, s1);
  }

  // Poll, store (or not), commit (or start again): a run.
  lemma ConsumingRun(past: seq<State>, done: seq<Event>, records: seq<Record>, upTo: map<int, nat>,
                     after: Option<Store>,
                     commits: bool)
    returns (states: seq<State>, events: seq<Event>)
    requires IsRun(past, done) && past[|done|].phase == Ready
    requires Polls(past[|done|].logs, past[|done|].committed, records, upTo)
    requires after.Some? ==> Stores(past[|done|].store, records, after.value)
    requires commits ==> after.Some?
    ensures IsRun(states, events)
    ensures states[|events|] == past[|done|].(
                                  store := if after.Some? then after.value else past[|done|].store,
                                  committed := past[|done|].committed + if commits then upTo else map[])
  {
    var s1 := PollingRun(past, done, records, upTo);
    states, events := past + [s1], done + [Poll(records, upTo)];
    if after.Some? {
      s1 := StoringRun(states, events, after.value);
      states, events := states + [s1], events + [StoreBatch];
    }
    var e;
    s1, e := EndingRun(states, events, commits);
    states, events := states + [s1], events + [e];
    assert past[|done|].committed + map[] == past[|done|].committed;
  }

  class Consumer {
    const store: AnalyticsStore
    var committed: map<int, nat>        // the group's offsets at the broker
    var connected: bool
    var receivedTotal: nat
    var storedTotal: int
    var duplicatesTotal: int
    var malformedTotal: nat

    constructor (store: AnalyticsStore) { this.store := store; }

    ghost predicate Shows(s: State)
      reads this, store
    {
      committed == s.committed && s.store == Store(store.archive, store.gaps, store.events, store.rollups)
    }

    // The database transaction of one batch.
    method StoreRecords(records: seq<Record>, ghost past: seq<State>, ghost done: seq<Event>)
      returns (result: ApplyResult, ghost after: Store)
      requires IsRun(past, done) && Shows(past[|done|])
      modifies store
      ensures Stores(past[|done|].store, records, after)
      ensures after == Store(store.archive, store.gaps, store.events, store.rollups)
      ensures store.archive == Collected(records, TickRowOf) + old(store.archive)
      ensures store.gaps == Collected(records, GapRowOf) + old(store.gaps)
      ensures store.events == Collected(records, EventRowOf) + old(store.events)
      ensures result.stored + result.duplicates + result.malformed == |records|
    {
      RunRollupsAgree(past, done);
      result := store.ApplyRecords(records);
      after := Store(store.archive, store.gaps, store.events, store.rollups);
    }

    // The offsets are committed and the counters move.
    method Finish(upTo: map<int, nat>, received: nat, result: ApplyResult)
      modifies this`committed, this`receivedTotal, this`storedTotal, this`duplicatesTotal, this`malformedTotal
      ensures committed == old(committed) + upTo && receivedTotal == old(receivedTotal) + received
      ensures storedTotal == old(storedTotal) + result.stored
      ensures duplicatesTotal == old(duplicatesTotal) + result.duplicates
      ensures malformedTotal == old(malformedTotal) + result.malformed
    {
      committed := committed + upTo;
      receivedTotal := receivedTotal + received;
      storedTotal := storedTotal + result.stored;
      duplicatesTotal := duplicatesTotal + result.duplicates;
      malformedTotal := malformedTotal + result.malformed;
    }

    // Store, then commit the offsets. A failure closes the consumer, which starts again at the
    // committed offsets.
    method PollBatch(records: seq<Record>, upTo: map<int, nat>, storeFails: bool, commitFails: bool,
                     ghost past: seq<State>, ghost done: seq<Event>)
      returns (ok: bool, ghost states: seq<State>, ghost events: seq<Event>)
      requires IsRun(past, done) && Shows(past[|done|]) && past[|done|].phase == Ready
      requires Polls(past[|done|].logs, committed, records, upTo)
      modifies this, store
      ensures IsRun(states, events) && Shows(states[|events|]) && states[|events|].phase == Ready
      ensures ok <==> !storeFails && !commitFails
      ensures committed == old(committed) + if ok then upTo else map[]
      ensures store.archive == (if storeFails then map[] else Collected(records, TickRowOf)) + old(store.archive)
      ensures store.gaps == (if storeFails then map[] else Collected(records, GapRowOf)) + old(store.gaps)
      ensures store.events == (if storeFails then map[] else Collected(records, EventRowOf)) + old(store.events)
      ensures receivedTotal == old(receivedTotal) + if ok then |records| else 0
      ensures ok ==> storedTotal - old(storedTotal) + duplicatesTotal - old(duplicatesTotal)
                     + malformedTotal - old(malformedTotal) == |records|
    {
      ok := !storeFails && !commitFails;
      if storeFails {
        connected := false;
        states, events := ConsumingRun(past, done, records, upTo, None, false);
        return;
      }
      var result;
      ghost var stored;
      result, stored := StoreRecords(records, past, done);
      if ok { Finish(upTo, |records|, result); } else { connected := false; }
      states, events := ConsumingRun(past, done, records, upTo, Some(stored), ok);
    }

    // One poll; an empty one touches nothing.
    method PollOnce(records: seq<Record>, upTo: map<int, nat>, storeFails: bool, commitFails: bool,
                    ghost past: seq<State>, ghost done: seq<Event>)
      returns (ok: bool, ghost states: seq<State>, ghost events: seq<Event>)
      requires IsRun(past, done) && Shows(past[|done|]) && past[|done|].phase == Ready
      requires Polls(past[|done|].logs, committed, records, upTo)
      modifies this, store
      ensures IsRun(states, events) && Shows(states[|events|]) && states[|events|].phase == Ready
      ensures ok <==> records == [] || (!storeFails && !commitFails)
      ensures committed == old(committed) + if ok && records != [] then upTo else map[]
      ensures store.archive == (if storeFails then map[] else Collected(records, TickRowOf)) + old(store.archive)
      ensures store.gaps == (if storeFails then map[] else Collected(records, GapRowOf)) + old(store.gaps)
      ensures store.events == (if storeFails then map[] else Collected(records, EventRowOf)) + old(store.events)
      ensures receivedTotal == old(receivedTotal) + if ok then |records| else 0
    {
      if records == [] { return true, past, done; }
      ok, states, events := PollBatch(records, upTo, storeFails, commitFails, past, done);
    }
  }
}
