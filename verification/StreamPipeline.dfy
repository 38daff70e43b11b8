// The telemetry stream end to end: spool, forwarder (backend/app/edge/stream/forwarder.py),
// broker logs, and the consumer that stores before it commits offsets
// (backend/app/cloud/stream/consumer.py). Crashes, lost acknowledgements, late broker writes and
// offset replays are steps that may happen at any time.
module StreamPipeline {
  import opened Prelude
  import opened Spool
  import opened Analytics

  // Polled: records read but not stored. Stored: database committed, offsets not.
  datatype ConsumerPhase = Ready | Polled(records: seq<Record>, upTo: map<int, nat>) | Stored(upTo: map<int, nat>)

  datatype Store = Store(
    archive: map<string, TickRow>, gaps: map<string, Gap>, events: map<string, EventRow>,
    rollups: map<(string, int), Rollup>)

  // spooled, sent and dropped are history: every record ever spooled, every record handed to the
  // producer, and for each dropped tick the gap record that counts it.
  datatype State = State(
    rows: seq<Record>, last: int, batch: seq<Record>,
    spooled: map<string, Record>, sent: set<Record>, dropped: map<string, string>,
    logs: map<int, seq<Record>>, committed: map<int, nat>, phase: ConsumerPhase, store: Store)

  const EMPTY := State([], 0, [], map[], {}, map[], map[], map[], Ready, Store(map[], map[], map[], map[]))

  datatype Event =
    | SpoolRecord(r: Record)
    | EnforceLimit(maxRecords: nat, lowWater: real, gaps: seq<Gap>)
    | ReadBatch(size: nat)
    | BrokerAppends(partition: int, r: Record)
    | DeleteAcknowledged(acked: seq<bool>)
    | ForwarderStops
    | Poll(records: seq<Record>, upTo: map<int, nat>)
    | StoreBatch
    | CommitOffsets
    | ConsumerFails

  function LogOf(logs: map<int, seq<Record>>, p: int): seq<Record> { if p in logs then logs[p] else [] }

  function OffsetOf(committed: map<int, nat>, p: int): nat { if p in committed then committed[p] else 0 }

  predicate InSomeLog(logs: map<int, seq<Record>>, r: Record) { exists p :: p in logs && r in logs[p] }

  // The forwarder's query: by priority, then by number.
  predicate Earlier(a: Record, b: Record) {
    Priority(a.kind) < Priority(b.kind) || (Priority(a.kind) == Priority(b.kind) && a.number < b.number)
  }

  ghost predicate IsOldestBatch(rows: seq<Record>, size: nat, batch: seq<Record>) {
    && |batch| == (if size <= |rows| then size else |rows|)
    && (forall i, j :: 0 <= i < j < |batch| ==> Earlier(batch[i], batch[j]))
    && (forall r :: r in batch ==> r in rows)
    && (forall r, b :: r in rows && r !in batch && b in batch ==> Earlier(b, r))
  }

  // One getmany: from each partition the records from the committed offset up to a new one, the
  // partitions in any order.
  ghost predicate Polls(logs: map<int, seq<Record>>, committed: map<int, nat>,
                        records: seq<Record>, upTo: map<int, nat>) {
    && (forall p :: p in upTo ==> OffsetOf(committed, p) <= upTo[p] <= |LogOf(logs, p)|)
    && (forall r :: r in records ==> InSomeLog(logs, r))
    && (forall p, i :: p in upTo && OffsetOf(committed, p) <= i < upTo[p] ==> LogOf(logs, p)[i] in records)
  }

  ghost predicate Stores(before: Store, records: seq<Record>, after: Store) {
    && after.archive == Collected(records, TickRowOf) + before.archive
    && after.gaps == Collected(records, GapRowOf) + before.gaps
    && after.events == Collected(records, EventRowOf) + before.events
    && RollupsAgree(after.archive, after.rollups)
  }

  // The records enforce_limit removes.
  ghost function Removed(rows: seq<Record>, maxRecords: nat, lowWater: real): seq<Record> {
    var excess := |Ticks(rows)| - LowCount(maxRecords, lowWater);
    if |Ticks(rows)| <= maxRecords || excess < 0 then [] else Oldest(rows, excess)
  }

  // removed leaves the spool, markers enter it, and the history says which marker counts what.
  ghost predicate Replaces(s: State, removed: seq<Record>, markers: seq<Record>, s': State) {
    && s'.rows == Without(s.rows, Numbers(removed)) + markers
    && EntersHistory(s.spooled, markers, s'.spooled)
    && EntersDrops(s.dropped, removed, markers, s'.dropped)
  }

  ghost predicate EntersHistory(spooled: map<string, Record>, markers: seq<Record>, spooled': map<string, Record>) {
    && (forall i :: 0 <= i < |markers| ==> markers[i].eventId !in spooled)
    && (forall i, j :: 0 <= i < j < |markers| ==> markers[i].eventId != markers[j].eventId)
    && (forall id :: id in spooled' <==> id in spooled || exists i :: 0 <= i < |markers| && markers[i].eventId == id)
    && (forall id :: id in spooled ==> spooled'[id] == spooled[id])
    && (forall i :: 0 <= i < |markers| ==> spooled'[markers[i].eventId] == markers[i])
  }

  ghost predicate EntersDrops(dropped: map<string, string>, removed: seq<Record>, markers: seq<Record>,
                              dropped': map<string, string>) {
    && (forall id :: id in dropped' <==> id in dropped || exists i :: 0 <= i < |removed| && removed[i].eventId == id)
    && (forall id :: id in dropped ==> dropped'[id] == dropped[id])
    && (forall i :: 0 <= i < |removed| ==> CountedBy(markers, removed[i], dropped'[removed[i].eventId]))
  }

  predicate CountedBy(markers: seq<Record>, tick: Record, id: string) {
    exists k :: 0 <= k < |markers| && markers[k].eventId == id && markers[k].machineId == tick.machineId
  }

  ghost predicate Next(s: State, e: Event, s': State) {
    match e
    case SpoolRecord(r) =>
      && r.number > s.last && r.eventId !in s.spooled && r.kind != GapMarker && !Malformed(r)
      && s' == s.(rows := s.rows + [r], last := r.number, spooled := s.spooled[r.eventId := r])
    case EnforceLimit(max, low, gaps) =>
      && s.batch == []
      && LimitEnforced(s.rows, s.last, max, low, s'.rows, Ok(gaps))
      && |gaps| <= |s'.rows|
      && Replaces(s, Removed(s.rows, max, low), s'.rows[|s'.rows| - |gaps|..], s')
      && s' == s.(rows := s'.rows, last := s.last + |gaps|, spooled := s'.spooled, dropped := s'.dropped)
    case ReadBatch(size) =>
      && s.batch == [] && IsOldestBatch(s.rows, size, s'.batch)
      && s' == s.(batch := s'.batch, sent := s.sent + set r | r in s'.batch)
    case BrokerAppends(p, r) =>
      r in s.sent && s' == s.(logs := s.logs[p := LogOf(s.logs, p) + [r]])
    case DeleteAcknowledged(acked) =>
      && |acked| == |s.batch|
      && (forall i :: 0 <= i < |acked| && acked[i] ==> InSomeLog(s.logs, s.batch[i]))
      && s' == s.(rows := Without(s.rows, set n | n in ClearNumbers(s.batch, acked, |acked|)), batch := [])
    case ForwarderStops =>
      s' == s.(batch := [])
    case Poll(records, upTo) =>
      && s.phase == Ready && Polls(s.logs, s.committed, records, upTo)
      && s' == s.(phase := Polled(records, upTo))
    case StoreBatch =>
      && s.phase.Polled? && Stores(s.store, s.phase.records, s'.store)
      && s' == s.(store := s'.store, phase := Stored(s.phase.upTo))
    case CommitOffsets =>
      s.phase.Stored? && s' == s.(committed := s.committed + s.phase.upTo, phase := Ready)
    case ConsumerFails =>
      s' == s.(phase := Ready)
  }

  // --- The invariant ----------------------------------------------------------------

  predicate Known(spooled: map<string, Record>, r: Record) {
    r.eventId in spooled && spooled[r.eventId] == r
  }

  ghost predicate Recorded(spooled: map<string, Record>, last: int) {
    forall id :: id in spooled ==> spooled[id].eventId == id && spooled[id].number <= last && !Malformed(spooled[id])
  }

  ghost predicate AllKnown(rows: seq<Record>, spooled: map<string, Record>) {
    forall r :: r in rows ==> Known(spooled, r)
  }

  ghost predicate LogsAreSent(logs: map<int, seq<Record>>, sent: set<Record>) {
    forall r :: InSomeLog(logs, r) ==> r in sent
  }

  ghost predicate SentIsKnown(sent: set<Record>, spooled: map<string, Record>) {
    forall r :: r in sent ==> Known(spooled, r)
  }

  // No silent loss: a spooled record is in the spool, in a broker log, or counted by a gap.
  ghost predicate NothingLost(rows: seq<Record>, logs: map<int, seq<Record>>, spooled: map<string, Record>,
                              dropped: map<string, string>) {
    forall r {:trigger Known(spooled, r)} :: Known(spooled, r) ==>
      r in rows || InSomeLog(logs, r) || r.eventId in dropped
  }

  // Only ticks are dropped, for good, and each names the gap record that counts it.
  ghost predicate DropsAreTicks(rows: seq<Record>, spooled: map<string, Record>, dropped: map<string, string>) {
    forall id :: id in dropped ==>
      id in spooled && spooled[id].kind == Telemetry && spooled[id] !in rows && CountsIt(spooled, id, dropped[id])
  }

  // The gap record `gap` covers the tick: same machine, time inside its range.
  predicate CountsIt(spooled: map<string, Record>, id: string, gap: string) {
    && id in spooled && gap in spooled && spooled[gap].data.GapData?
    && spooled[gap].kind == GapMarker
    && spooled[gap].machineId == spooled[id].machineId
    && spooled[gap].data.gap.fromTs <= spooled[id].eventTime <= spooled[gap].data.gap.toTs
  }

  ghost function CountedIn(dropped: map<string, string>, gap: string): set<string> {
    set id | id in dropped && dropped[id] == gap
  }

  ghost predicate GapCountsAreExact(spooled: map<string, Record>, dropped: map<string, string>) {
    forall g :: g in spooled && spooled[g].kind == GapMarker ==>
      spooled[g].data.GapData? && spooled[g].data.gap.droppedCount == |CountedIn(dropped, g)|
  }

  // What the cloud holds for one record.
  predicate IsStored(store: Store, r: Record) {
    && (TickRowOf(r).Some? ==> Get(store.archive, r.eventId) == TickRowOf(r))
    && (GapRowOf(r).Some? ==> Get(store.gaps, r.eventId) == GapRowOf(r))
    && (EventRowOf(r).Some? ==> Get(store.events, r.eventId) == EventRowOf(r))
  }

  // Every stored row is a spooled record.
  ghost predicate StoreIsSound(store: Store, spooled: map<string, Record>) {
    && (forall id :: id in store.archive ==> id in spooled && TickRowOf(spooled[id]) == Some(store.archive[id]))
    && (forall id :: id in store.gaps ==> id in spooled && GapRowOf(spooled[id]) == Some(store.gaps[id]))
    && (forall id :: id in store.events ==> id in spooled && EventRowOf(spooled[id]) == Some(store.events[id]))
  }

  ghost predicate StoredUpTo(store: Store, logs: map<int, seq<Record>>, offsets: map<int, nat>) {
    forall p, i :: 0 <= i < OffsetOf(offsets, p) && i < |LogOf(logs, p)| ==> IsStored(store, LogOf(logs, p)[i])
  }

  ghost predicate ConsumerIsBehind(logs: map<int, seq<Record>>, committed: map<int, nat>, phase: ConsumerPhase,
                                   store: Store) {
    && (forall p :: OffsetOf(committed, p) <= |LogOf(logs, p)|)
    && StoredUpTo(store, logs, committed)
    && (phase.Polled? ==> Polls(logs, committed, phase.records, phase.upTo))
    && (phase.Stored? ==> (forall p :: p in phase.upTo ==> phase.upTo[p] <= |LogOf(logs, p)|)
                          && StoredUpTo(store, logs, phase.upTo))
  }

  ghost predicate SpoolSound(s: State) {
    && Ordered(s.rows, s.last) && Recorded(s.spooled, s.last)
    && AllKnown(s.rows, s.spooled) && (forall r :: r in s.batch ==> r in s.rows)
    && SentIsKnown(s.sent, s.spooled) && LogsAreSent(s.logs, s.sent)
  }

  ghost predicate LossSound(s: State) {
    && NothingLost(s.rows, s.logs, s.spooled, s.dropped)
    && DropsAreTicks(s.rows, s.spooled, s.dropped)
    && GapCountsAreExact(s.spooled, s.dropped)
  }

  ghost predicate CloudSound(s: State) {
    && StoreIsSound(s.store, s.spooled)
    && RollupsAgree(s.store.archive, s.store.rollups)
    && ConsumerIsBehind(s.logs, s.committed, s.phase, s.store)
  }

  ghost predicate Inv(s: State) { SpoolSound(s) && LossSound(s) && CloudSound(s) }

  // --- Steps of the spool and the forwarder -----------------------------------------

  lemma {:induction false} OfMachineMembers(rows: seq<Record>, m: string)
    ensures forall r :: r in OfMachine(rows, m) <==> r in rows && r.machineId == m
  {
    if rows != [] {
      OfMachineMembers(rows[..|rows| - 1], m);
      assert rows == rows[..|rows| - 1] + [rows[|rows| - 1]];
    }
  }

  lemma {:induction false} OfMachineIsOrdered(rows: seq<Record>, m: string, last: int)
    requires Ordered(rows, last)
    ensures Ordered(OfMachine(rows, m), last)
  {
    if rows != [] {
      var before := rows[..|rows| - 1];
      OfMachineIsOrdered(before, m, last);
      OfMachineMembers(before, m);
      var own := OfMachine(before, m);
      forall i | 0 <= i < |own| ensures own[i].number < rows[|rows| - 1].number {
        assert own[i] in before;
      }
    }
  }

  ghost function Ids(rows: seq<Record>): set<string> { set r | r in rows :: r.eventId }

  lemma DistinctIds(rows: seq<Record>, spooled: map<string, Record>, last: int, i: nat, j: nat)
    requires Ordered(rows, last) && AllKnown(rows, spooled) && i < j < |rows|
    ensures rows[i].eventId != rows[j].eventId
  {
    assert Known(spooled, rows[i]) && Known(spooled, rows[j]);
    assert rows[i].number < rows[j].number;
  }

  lemma {:induction false} AsManyIds(rows: seq<Record>)
    requires forall i, j :: 0 <= i < j < |rows| ==> rows[i].eventId != rows[j].eventId
    ensures |Ids(rows)| == |rows|
  {
    if rows == [] {
      assert Ids(rows) == {};
    } else {
      var before, r := rows[..|rows| - 1], rows[|rows| - 1];
      AsManyIds(before);
      assert forall x :: x in before ==> x.eventId != r.eventId;
      assert Ids(rows) == Ids(before) + {r.eventId} by { assert rows == before + [r]; }
    }
  }

  // A number belongs to one record.
  lemma SameNumberSameRecord(rows: seq<Record>, last: int, a: Record, b: Record)
    requires Ordered(rows, last) && a in rows && b in rows && a.number == b.number
    ensures a == b
  {
    var i :| 0 <= i < |rows| && rows[i] == a;
    var j :| 0 <= j < |rows| && rows[j] == b;
    if i < j { assert rows[i].number < rows[j].number; }
    if j < i { assert rows[j].number < rows[i].number; }
  }

  lemma WithoutExactly(rows: seq<Record>, last: int, removed: seq<Record>)
    requires Ordered(rows, last) && forall r :: r in removed ==> r in rows
    ensures forall r :: r in Without(rows, Numbers(removed)) <==> r in rows && r !in removed
  {
    WithoutMembers(rows, Numbers(removed));
    forall r | r in rows ensures r.number in Numbers(removed) <==> r in removed {
      if r.number in Numbers(removed) {
        var i :| 0 <= i < |removed| && removed[i].number == r.number;
        SameNumberSameRecord(rows, last, r, removed[i]);
      }
      if r in removed {
        var i :| 0 <= i < |removed| && removed[i] == r;
      }
    }
  }

  // What one enforcement of the limit removes and writes, whichever branch it takes.
  ghost predicate Enforced(s: State, removed: seq<Record>, gaps: seq<Gap>, markers: seq<Record>, s': State) {
    && Replaces(s, removed, markers, s')
    && (forall r :: r in removed ==> r in s.rows && r.kind == Telemetry)
    && Ordered(removed, s.last)
    && GapsAreExact(removed, gaps) && AreGapRecords(markers, gaps, s.last)
    && (forall r :: r in s'.rows <==> (r in s.rows && r !in removed) || r in markers)
    && Ordered(s'.rows, s.last + |gaps|)
  }

  lemma RemovedAreTicks(rows: seq<Record>, last: int, max: nat, low: real)
    requires Ordered(rows, last)
    ensures var removed := Removed(rows, max, low);
            Ordered(removed, last) && forall r :: r in removed ==> r in rows && r.kind == Telemetry
  {
    var removed := Removed(rows, max, low);
    TicksAreRows(rows);
    TicksAreOrdered(rows, last);
    forall r | r in removed ensures r in rows && r.kind == Telemetry {
      var i :| 0 <= i < |removed| && removed[i] == r;
      assert removed[i] == Ticks(rows)[i];
    }
  }

  lemma NothingRemoved(rows: seq<Record>)
    ensures Without(rows, Numbers([])) + [] == rows && GapsAreExact([], [])
  {
    WithoutNone(rows, Numbers([]));
  }

  lemma EnforcedRows(s: State, max: nat, low: real, gaps: seq<Gap>, rows': seq<Record>)
    requires LimitEnforced(s.rows, s.last, max, low, rows', Ok(gaps)) && |gaps| <= |rows'|
    ensures var markers := rows'[|rows'| - |gaps|..];
            && rows' == Without(s.rows, Numbers(Removed(s.rows, max, low))) + markers
            && GapsAreExact(Removed(s.rows, max, low), gaps) && AreGapRecords(markers, gaps, s.last)
  {
    if |Ticks(s.rows)| <= max {
      NothingRemoved(s.rows);
    } else {
      assert rows' == rows'[..|rows'| - |gaps|] + rows'[|rows'| - |gaps|..];
    }
  }

  // The rows that stay, in their order, and the markers after them.
  lemma EnforcedMembers(rows: seq<Record>, last: int, removed: seq<Record>, markers: seq<Record>, gaps: seq<Gap>)
    requires Ordered(rows, last) && AreGapRecords(markers, gaps, last) && forall r :: r in removed ==> r in rows
    ensures var after := Without(rows, Numbers(removed)) + markers;
            && Ordered(after, last + |gaps|)
            && forall r :: r in after <==> (r in rows && r !in removed) || r in markers
  {
    WithoutExactly(rows, last, removed);
    WithoutIsOrdered(rows, Numbers(removed), last);
    MarkersAreOrdered(Without(rows, Numbers(removed)), markers, gaps, last);
  }

  lemma EnforceStep(s: State, max: nat, low: real, gaps: seq<Gap>, s': State)
    requires Next(s, EnforceLimit(max, low, gaps), s')
    ensures LimitEnforced(s.rows, s.last, max, low, s'.rows, Ok(gaps)) && |gaps| <= |s'.rows|
    ensures Replaces(s, Removed(s.rows, max, low), s'.rows[|s'.rows| - |gaps|..], s')
  {
  }

  lemma EnforcedExactly(s: State, max: nat, low: real, gaps: seq<Gap>, s': State)
    requires Ordered(s.rows, s.last) && Next(s, EnforceLimit(max, low, gaps), s')
    ensures Enforced(s, Removed(s.rows, max, low), gaps, s'.rows[|s'.rows| - |gaps|..], s')
  {
    EnforceStep(s, max, low, gaps, s');
    LimitIsExact(s, max, low, gaps, s');
  }

  lemma LimitIsExact(s: State, max: nat, low: real, gaps: seq<Gap>, s': State)
    requires Ordered(s.rows, s.last) && LimitEnforced(s.rows, s.last, max, low, s'.rows, Ok(gaps))
             && |gaps| <= |s'.rows|
    requires Replaces(s, Removed(s.rows, max, low), s'.rows[|s'.rows| - |gaps|..], s')
    ensures Enforced(s, Removed(s.rows, max, low), gaps, s'.rows[|s'.rows| - |gaps|..], s')
  {
    var removed := Removed(s.rows, max, low);
    RemovedAreTicks(s.rows, s.last, max, low);
    EnforcedRows(s, max, low, gaps, s'.rows);
    EnforcedMembers(s.rows, s.last, removed, s'.rows[|s'.rows| - |gaps|..], gaps);
  }

  lemma EnforceKeepsSpool(s: State, removed: seq<Record>, gaps: seq<Gap>, markers: seq<Record>, s': State)
    requires SpoolSound(s) && s.batch == [] && Enforced(s, removed, gaps, markers, s')
    requires s' == s.(rows := s'.rows, last := s.last + |gaps|, spooled := s'.spooled, dropped := s'.dropped)
    ensures SpoolSound(s')
  {
    MarkersAreRecorded(s, removed, gaps, markers, s');
    assert forall r :: Known(s.spooled, r) ==> Known(s'.spooled, r);
    forall r | r in s'.rows ensures Known(s'.spooled, r) {
      if r in markers {
        var i :| 0 <= i < |markers| && markers[i] == r;
      }
    }
  }

  lemma MarkersAreRecorded(s: State, removed: seq<Record>, gaps: seq<Gap>, markers: seq<Record>, s': State)
    requires Recorded(s.spooled, s.last) && Replaces(s, removed, markers, s') && AreGapRecords(markers, gaps, s.last)
    ensures Recorded(s'.spooled, s.last + |gaps|)
  {
    forall id | id in s'.spooled
      ensures var r := s'.spooled[id]; r.eventId == id && r.number <= s.last + |gaps| && !Malformed(r)
    {
      if id !in s.spooled {
        var i :| 0 <= i < |markers| && markers[i].eventId == id;
        assert GapRowOf(markers[i]).Some?;
      }
    }
  }

  lemma EnforceLosesNothing(s: State, removed: seq<Record>, gaps: seq<Gap>, markers: seq<Record>, s': State)
    requires SpoolSound(s) && LossSound(s) && Enforced(s, removed, gaps, markers, s')
    requires s'.logs == s.logs
    ensures NothingLost(s'.rows, s'.logs, s'.spooled, s'.dropped)
  {
    forall r | Known(s'.spooled, r) ensures r in s'.rows || InSomeLog(s'.logs, r) || r.eventId in s'.dropped {
      if r.eventId in s.spooled {
        assert Known(s.spooled, r);
      }
    }
  }

  lemma RemovedIsCounted(s: State, removed: seq<Record>, gaps: seq<Gap>, markers: seq<Record>, s': State, i: nat)
    requires SpoolSound(s) && Enforced(s, removed, gaps, markers, s') && i < |removed|
    ensures CountsIt(s'.spooled, removed[i].eventId, s'.dropped[removed[i].eventId])
  {
    var id := s'.dropped[removed[i].eventId];
    assert CountedBy(markers, removed[i], id);
    var k :| 0 <= k < |markers| && markers[k].eventId == id && markers[k].machineId == removed[i].machineId;
    assert GapIsExact(removed, gaps[k]);
    OfMachineMembers(removed, gaps[k].machineId);
    assert removed[i] in OfMachine(removed, gaps[k].machineId);
    assert Known(s.spooled, removed[i]);
  }

  lemma EnforceKeepsDrops(s: State, removed: seq<Record>, gaps: seq<Gap>, markers: seq<Record>, s': State)
    requires SpoolSound(s) && LossSound(s) && Enforced(s, removed, gaps, markers, s')
    ensures DropsAreTicks(s'.rows, s'.spooled, s'.dropped)
  {
    forall id | id in s'.dropped
      ensures id in s'.spooled && s'.spooled[id].kind == Telemetry && s'.spooled[id] !in s'.rows
      ensures CountsIt(s'.spooled, id, s'.dropped[id])
    {
      if id in s.dropped {
        assert CountsIt(s.spooled, id, s.dropped[id]);
      } else {
        var i :| 0 <= i < |removed| && removed[i].eventId == id;
        assert Known(s.spooled, removed[i]);
        RemovedIsCounted(s, removed, gaps, markers, s', i);
      }
    }
  }

  // Which ticks the new marker k counts: those of its machine.
  lemma CountedByNewGap(s: State, removed: seq<Record>, gaps: seq<Gap>, markers: seq<Record>, s': State, k: nat, i: nat)
    requires Replaces(s, removed, markers, s') && GapsAreExact(removed, gaps) && AreGapRecords(markers, gaps, s.last)
    requires k < |markers| && i < |removed|
    ensures s'.dropped[removed[i].eventId] == markers[k].eventId <==> removed[i].machineId == markers[k].machineId
    ensures s'.dropped[removed[i].eventId] !in s.spooled
  {
    assert CountedBy(markers, removed[i], s'.dropped[removed[i].eventId]);
    var j :| 0 <= j < |markers| && markers[j].eventId == s'.dropped[removed[i].eventId]
             && markers[j].machineId == removed[i].machineId;
    if j != k {
      assert gaps[j].machineId != gaps[k].machineId && markers[j].eventId != markers[k].eventId;
    }
  }

  lemma NotYetDropped(s: State, removed: seq<Record>, i: nat)
    requires SpoolSound(s) && DropsAreTicks(s.rows, s.spooled, s.dropped)
    requires i < |removed| && removed[i] in s.rows
    ensures removed[i].eventId !in s.dropped
  {
    assert Known(s.spooled, removed[i]);
  }

  lemma OldDropStays(s: State, removed: seq<Record>, markers: seq<Record>, s': State, id: string)
    requires DropsAreTicks(s.rows, s.spooled, s.dropped) && Replaces(s, removed, markers, s')
    ensures id in s.dropped ==> s'.dropped[id] == s.dropped[id] && s.dropped[id] in s.spooled
  {
    if id in s.dropped { assert CountsIt(s.spooled, id, s.dropped[id]); }
  }

  // What a new marker counts was removed now, and belongs to its machine.
  lemma CountedIsOwn(s: State, removed: seq<Record>, gaps: seq<Gap>, markers: seq<Record>, s': State, k: nat,
                     id: string)
    requires DropsAreTicks(s.rows, s.spooled, s.dropped) && Replaces(s, removed, markers, s')
    requires GapsAreExact(removed, gaps) && AreGapRecords(markers, gaps, s.last)
    requires k < |markers| && id in CountedIn(s'.dropped, markers[k].eventId)
    ensures id in Ids(OfMachine(removed, markers[k].machineId))
  {
    OldDropStays(s, removed, markers, s', id);
    var i :| 0 <= i < |removed| && removed[i].eventId == id;
    CountedByNewGap(s, removed, gaps, markers, s', k, i);
    OfMachineMembers(removed, markers[k].machineId);
    assert removed[i] in OfMachine(removed, markers[k].machineId);
  }

  lemma OwnIsCounted(s: State, removed: seq<Record>, gaps: seq<Gap>, markers: seq<Record>, s': State, k: nat,
                     id: string)
    requires Replaces(s, removed, markers, s') && GapsAreExact(removed, gaps) && AreGapRecords(markers, gaps, s.last)
    requires k < |markers| && id in Ids(OfMachine(removed, markers[k].machineId))
    ensures id in CountedIn(s'.dropped, markers[k].eventId)
  {
    var own := OfMachine(removed, markers[k].machineId);
    OfMachineMembers(removed, markers[k].machineId);
    var r :| r in own && r.eventId == id;
    var i :| 0 <= i < |removed| && removed[i] == r;
    CountedByNewGap(s, removed, gaps, markers, s', k, i);
  }

  lemma NewGapCountsItsTicks(s: State, removed: seq<Record>, gaps: seq<Gap>, markers: seq<Record>, s': State, k: nat)
    requires DropsAreTicks(s.rows, s.spooled, s.dropped) && Replaces(s, removed, markers, s')
    requires GapsAreExact(removed, gaps) && AreGapRecords(markers, gaps, s.last) && k < |markers|
    ensures CountedIn(s'.dropped, markers[k].eventId) == Ids(OfMachine(removed, markers[k].machineId))
  {
    forall id | id in CountedIn(s'.dropped, markers[k].eventId)
      ensures id in Ids(OfMachine(removed, markers[k].machineId))
    {
      CountedIsOwn(s, removed, gaps, markers, s', k, id);
    }
    forall id | id in Ids(OfMachine(removed, markers[k].machineId))
      ensures id in CountedIn(s'.dropped, markers[k].eventId)
    {
      OwnIsCounted(s, removed, gaps, markers, s', k, id);
    }
  }

  lemma OldGapKeepsItsTicks(s: State, removed: seq<Record>, gaps: seq<Gap>, markers: seq<Record>, s': State, g: string)
    requires SpoolSound(s) && LossSound(s) && Enforced(s, removed, gaps, markers, s') && g in s.spooled
    ensures CountedIn(s'.dropped, g) == CountedIn(s.dropped, g)
  {
    forall id | id in s'.dropped && id !in s.dropped ensures s'.dropped[id] != g {
      var i :| 0 <= i < |removed| && removed[i].eventId == id;
      assert CountedBy(markers, removed[i], s'.dropped[id]);
    }
  }

  lemma NewGapIsExact(s: State, removed: seq<Record>, gaps: seq<Gap>, markers: seq<Record>, s': State, k: nat)
    requires SpoolSound(s) && LossSound(s) && Enforced(s, removed, gaps, markers, s') && k < |markers|
    ensures gaps[k].droppedCount == |CountedIn(s'.dropped, markers[k].eventId)|
  {
    NewGapCountsItsTicks(s, removed, gaps, markers, s', k);
    var own := OfMachine(removed, markers[k].machineId);
    OfMachineMembers(removed, markers[k].machineId);
    OfMachineIsOrdered(removed, markers[k].machineId, s.last);
    forall i, j | 0 <= i < j < |own| ensures own[i].eventId != own[j].eventId {
      DistinctIds(own, s.spooled, s.last, i, j);
    }
    AsManyIds(own);
    assert GapIsExact(removed, gaps[k]);
  }

  lemma EnforceCountsExactly(s: State, removed: seq<Record>, gaps: seq<Gap>, markers: seq<Record>, s': State)
    requires SpoolSound(s) && LossSound(s) && Enforced(s, removed, gaps, markers, s')
    ensures GapCountsAreExact(s'.spooled, s'.dropped)
  {
    forall g | g in s'.spooled && s'.spooled[g].kind == GapMarker
      ensures s'.spooled[g].data.GapData? && s'.spooled[g].data.gap.droppedCount == |CountedIn(s'.dropped, g)|
    {
      if g in s.spooled {
        OldGapKeepsItsTicks(s, removed, gaps, markers, s', g);
      } else {
        var k :| 0 <= k < |markers| && markers[k].eventId == g;
        NewGapIsExact(s, removed, gaps, markers, s', k);
      }
    }
  }

  lemma EnforceIsSound(s: State, max: nat, low: real, gaps: seq<Gap>, s': State)
    requires SpoolSound(s) && LossSound(s) && Next(s, EnforceLimit(max, low, gaps), s')
    ensures SpoolSound(s') && LossSound(s')
  {
    EnforcedExactly(s, max, low, gaps, s');
    var removed := Removed(s.rows, max, low);
    var markers := s'.rows[|s'.rows| - |gaps|..];
    EnforceKeepsSpool(s, removed, gaps, markers, s');
    EnforceLosesNothing(s, removed, gaps, markers, s');
    EnforceKeepsDrops(s, removed, gaps, markers, s');
    EnforceCountsExactly(s, removed, gaps, markers, s');
  }

  lemma SpoolRecordKeepsSpool(s: State, r: Record, s': State)
    requires SpoolSound(s) && Next(s, SpoolRecord(r), s')
    ensures SpoolSound(s')
  {
    assert forall x :: x in s'.rows <==> x in s.rows || x == r;
    assert forall x :: Known(s.spooled, x) ==> Known(s'.spooled, x);
  }

  lemma SpoolRecordKeepsCounts(s: State, r: Record, s': State)
    requires SpoolSound(s) && LossSound(s) && Next(s, SpoolRecord(r), s')
    ensures LossSound(s')
  {
    assert forall x :: x in s'.rows <==> x in s.rows || x == r;
    forall x | Known(s'.spooled, x) ensures x in s'.rows || InSomeLog(s'.logs, x) || x.eventId in s'.dropped {
      if x.eventId != r.eventId { assert Known(s.spooled, x); }
    }
    forall id | id in s'.dropped ensures s'.spooled[id] !in s'.rows && CountsIt(s'.spooled, id, s'.dropped[id]) {
      assert CountsIt(s.spooled, id, s.dropped[id]);
    }
  }

  // Only records the broker holds are deleted.
  lemma DeleteIsSound(s: State, acked: seq<bool>, s': State)
    requires SpoolSound(s) && LossSound(s) && Next(s, DeleteAcknowledged(acked), s')
    ensures SpoolSound(s') && LossSound(s')
  {
    var numbers := set n | n in ClearNumbers(s.batch, acked, |acked|);
    WithoutMembers(s.rows, numbers);
    WithoutIsOrdered(s.rows, numbers, s.last);
    forall r | r in s.rows && r !in s'.rows ensures InSomeLog(s.logs, r) {
      ClearNumbersExactly(s.batch, acked, |acked|, r.number);
      var i :| 0 <= i < |acked| && s.batch[i].number == r.number && acked[i];
      SameNumberSameRecord(s.rows, s.last, r, s.batch[i]);
    }
  }

  lemma LogGrows(logs: map<int, seq<Record>>, p: int, r: Record)
    ensures var after := logs[p := LogOf(logs, p) + [r]];
            && (forall x :: InSomeLog(after, x) <==> InSomeLog(logs, x) || x == r)
            && (forall q :: |LogOf(logs, q)| <= |LogOf(after, q)|)
            && (forall q, i :: 0 <= i < |LogOf(logs, q)| ==> LogOf(after, q)[i] == LogOf(logs, q)[i])
  {
    var after := logs[p := LogOf(logs, p) + [r]];
    forall x ensures InSomeLog(after, x) <==> InSomeLog(logs, x) || x == r {
      if InSomeLog(logs, x) {
        var q :| q in logs && x in logs[q];
        assert x in after[q];
      }
      if x == r { assert x in after[p]; }
      if InSomeLog(after, x) && x != r {
        var q :| q in after && x in after[q];
        assert q in logs && x in logs[q];
      }
    }
  }

  lemma AppendIsSound(s: State, p: int, r: Record, s': State)
    requires Inv(s) && Next(s, BrokerAppends(p, r), s')
    ensures Inv(s')
  {
    LogGrows(s.logs, p, r);
    assert SpoolSound(s') && LossSound(s');
    forall q, i | 0 <= i < OffsetOf(s.committed, q) && i < |LogOf(s'.logs, q)|
      ensures IsStored(s.store, LogOf(s'.logs, q)[i])
    {
      assert IsStored(s.store, LogOf(s.logs, q)[i]);
    }
    if s.phase.Stored? {
      forall q, i | 0 <= i < OffsetOf(s.phase.upTo, q) && i < |LogOf(s'.logs, q)|
        ensures IsStored(s.store, LogOf(s'.logs, q)[i])
      {
        assert IsStored(s.store, LogOf(s.logs, q)[i]);
      }
    }
  }

  // --- Steps of the consumer --------------------------------------------------------

  lemma MergeKeepsRows<V>(before: map<string, V>, records: seq<Record>, decode: Record -> Option<V>,
                          spooled: map<string, Record>, r: Record)
    requires forall id :: id in before ==> id in spooled && decode(spooled[id]) == Some(before[id])
    requires forall x :: x in records ==> Known(spooled, x)
    requires Known(spooled, r) && (r in records || (decode(r).Some? ==> Get(before, r.eventId) == decode(r)))
    ensures decode(r).Some? ==> Get(Collected(records, decode) + before, r.eventId) == decode(r)
  {
    if decode(r).Some? {
      CollectedExactly(records, decode, r.eventId);
      if r in records { assert Decodes(r, r.eventId, decode); }
      if r.eventId !in before {
        var x :| x in records && Decodes(x, r.eventId, decode)
                 && Collected(records, decode)[r.eventId] == decode(x).value;
        assert Known(spooled, x);
      }
    }
  }

  lemma MergeIsSound<V>(before: map<string, V>, records: seq<Record>, decode: Record -> Option<V>,
                        spooled: map<string, Record>)
    requires forall id :: id in before ==> id in spooled && decode(spooled[id]) == Some(before[id])
    requires forall x :: x in records ==> Known(spooled, x)
    ensures var after := Collected(records, decode) + before;
            forall id :: id in after ==> id in spooled && decode(spooled[id]) == Some(after[id])
  {
    var after := Collected(records, decode) + before;
    forall id | id in after ensures id in spooled && decode(spooled[id]) == Some(after[id]) {
      if id !in before {
        CollectedExactly(records, decode, id);
        var x :| x in records && Decodes(x, id, decode) && Collected(records, decode)[id] == decode(x).value;
        assert Known(spooled, x);
      }
    }
  }

  lemma StoreKeepsRecord(before: Store, records: seq<Record>, after: Store, spooled: map<string, Record>, r: Record)
    requires StoreIsSound(before, spooled) && Stores(before, records, after)
    requires forall x :: x in records ==> Known(spooled, x)
    requires Known(spooled, r) && (r in records || IsStored(before, r))
    ensures IsStored(after, r)
  {
    MergeKeepsRows(before.archive, records, TickRowOf, spooled, r);
    MergeKeepsRows(before.gaps, records, GapRowOf, spooled, r);
    MergeKeepsRows(before.events, records, EventRowOf, spooled, r);
  }

  lemma StoreStaysSound(before: Store, records: seq<Record>, after: Store, spooled: map<string, Record>)
    requires StoreIsSound(before, spooled) && Stores(before, records, after)
    requires forall x :: x in records ==> Known(spooled, x)
    ensures StoreIsSound(after, spooled)
  {
    MergeIsSound(before.archive, records, TickRowOf, spooled);
    MergeIsSound(before.gaps, records, GapRowOf, spooled);
    MergeIsSound(before.events, records, EventRowOf, spooled);
  }

  lemma StoreBatchIsSound(s: State, s': State)
    requires SpoolSound(s) && CloudSound(s) && Next(s, StoreBatch, s')
    ensures CloudSound(s')
  {
    var records, upTo := s.phase.records, s.phase.upTo;
    forall r | r in records ensures Known(s.spooled, r) {
      assert InSomeLog(s.logs, r);
    }
    StoreStaysSound(s.store, records, s'.store, s.spooled);
    forall p, i | 0 <= i < |LogOf(s.logs, p)| && (i < OffsetOf(s.committed, p) || i < OffsetOf(upTo, p))
      ensures IsStored(s'.store, LogOf(s.logs, p)[i])
    {
      var r := LogOf(s.logs, p)[i];
      assert InSomeLog(s.logs, r) by { assert p in s.logs && r in s.logs[p]; }
      if i < OffsetOf(s.committed, p) { assert IsStored(s.store, r); } else { assert r in records; }
      StoreKeepsRecord(s.store, records, s'.store, s.spooled, r);
    }
    assert StoredUpTo(s'.store, s'.logs, s'.committed) && StoredUpTo(s'.store, s'.logs, upTo);
  }

  lemma CommitIsSound(s: State, s': State)
    requires CloudSound(s) && Next(s, CommitOffsets, s')
    ensures CloudSound(s')
  {
    forall p, i | 0 <= i < OffsetOf(s'.committed, p) && i < |LogOf(s.logs, p)|
      ensures IsStored(s.store, LogOf(s.logs, p)[i])
    {
      if p in s.phase.upTo {
        assert OffsetOf(s'.committed, p) == OffsetOf(s.phase.upTo, p);
      } else {
        assert OffsetOf(s'.committed, p) == OffsetOf(s.committed, p);
      }
    }
  }

  lemma StoreIsSoundLater(store: Store, before: map<string, Record>, after: map<string, Record>)
    requires StoreIsSound(store, before) && forall id :: id in before ==> id in after && after[id] == before[id]
    ensures StoreIsSound(store, after)
  {
  }

  lemma StepIsSound(s: State, e: Event, s': State)
    requires Inv(s) && Next(s, e, s')
    ensures Inv(s')
  {
    match e
    case SpoolRecord(r) =>
      SpoolRecordKeepsSpool(s, r, s');
      SpoolRecordKeepsCounts(s, r, s');
      StoreIsSoundLater(s.store, s.spooled, s'.spooled);
    case EnforceLimit(max, low, gaps) =>
      EnforceIsSound(s, max, low, gaps, s');
      StoreIsSoundLater(s.store, s.spooled, s'.spooled);
    case ReadBatch(size) =>
    case BrokerAppends(p, r) => AppendIsSound(s, p, r, s');
    case DeleteAcknowledged(acked) => DeleteIsSound(s, acked, s');
    case ForwarderStops =>
    case Poll(records, upTo) =>
    case StoreBatch => StoreBatchIsSound(s, s');
    case CommitOffsets => CommitIsSound(s, s');
    case ConsumerFails =>
  }

  // --- Whole runs -------------------------------------------------------------------

  ghost predicate Path(states: seq<State>, events: seq<Event>) {
    |states| == |events| + 1 && forall i :: 0 <= i < |events| ==> Next(states[i], events[i], states[i + 1])
  }

  lemma {:induction false} PathIsSound(states: seq<State>, events: seq<Event>)
    requires Path(states, events) && Inv(states[0])
    ensures Inv(states[|events|])
    decreases |events|
  {
    if events != [] {
      var n := |events| - 1;
      PathIsSound(states[..n + 1], events[..n]);
      StepIsSound(states[n], events[n], states[n + 1]);
    }
  }

  lemma EmptyIsSound()
    ensures Inv(EMPTY)
  {
    assert forall m: string, b: int :: Group(EMPTY.store.archive, m, b) == map[];
  }

  // Whatever crashes, replays or acknowledgements were lost, a spooled record is in the spool or
  // in a broker log, or it is a tick that a gap record counts; and that gap record itself is in
  // the spool or in a log.
  lemma NoSilentLoss(states: seq<State>, events: seq<Event>, r: Record)
    requires Path(states, events) && states[0] == EMPTY
    requires Known(states[|events|].spooled, r)
    ensures var s := states[|events|];
            || r in s.rows || InSomeLog(s.logs, r)
            || (&& r.kind == Telemetry && r.eventId in s.dropped && CountsIt(s.spooled, r.eventId, s.dropped[r.eventId])
                && var gap := s.spooled[s.dropped[r.eventId]]; (gap in s.rows || InSomeLog(s.logs, gap)))
  {
    EmptyIsSound();
    PathIsSound(states, events);
    var s := states[|events|];
    if r.eventId in s.dropped {
      assert CountsIt(s.spooled, r.eventId, s.dropped[r.eventId]);
      var gap := s.spooled[s.dropped[r.eventId]];
      assert Known(s.spooled, gap);
    }
  }

  ghost predicate CaughtUp(s: State) {
    s.rows == [] && forall p :: OffsetOf(s.committed, p) == |LogOf(s.logs, p)|
  }

  function SpooledTicks(spooled: map<string, Record>): set<string> {
    set id | id in spooled && spooled[id].kind == Telemetry
  }

  lemma StoredOnceCaughtUp(s: State, r: Record)
    requires Inv(s) && CaughtUp(s) && Known(s.spooled, r)
    ensures IsStored(s.store, r) || r.eventId in s.dropped
  {
    if InSomeLog(s.logs, r) {
      var p :| p in s.logs && r in s.logs[p];
      var i :| 0 <= i < |s.logs[p]| && s.logs[p][i] == r;
      assert IsStored(s.store, LogOf(s.logs, p)[i]);
    }
  }

  function SpooledEvents(spooled: map<string, Record>): set<string> {
    set id | id in spooled && spooled[id].kind in {IncidentChange, BehaviorChange}
  }

  lemma OnlyTicksAreDropped(s: State, id: string)
    requires Inv(s) && id in s.dropped
    ensures id in s.spooled && s.spooled[id].kind == Telemetry
    ensures s.dropped[id] in s.spooled && s.spooled[s.dropped[id]].kind == GapMarker
  {
    assert CountsIt(s.spooled, id, s.dropped[id]);
  }

  lemma EventsArrive(s: State)
    requires Inv(s) && CaughtUp(s)
    ensures s.store.events.Keys == SpooledEvents(s.spooled)
    ensures forall id :: id in s.store.events ==> EventRowOf(s.spooled[id]) == Some(s.store.events[id])
  {
    forall id | id in s.dropped ensures id !in SpooledEvents(s.spooled) { OnlyTicksAreDropped(s, id); }
    forall id | id in SpooledEvents(s.spooled) ensures id in s.store.events {
      StoredOnceCaughtUp(s, s.spooled[id]);
      assert !Malformed(s.spooled[id]);
    }
  }

  lemma TicksArrive(s: State)
    requires Inv(s) && CaughtUp(s)
    ensures s.store.archive.Keys + s.dropped.Keys == SpooledTicks(s.spooled)
    ensures forall id :: id in s.store.archive ==> TickRowOf(s.spooled[id]) == Some(s.store.archive[id])
  {
    forall id | id in s.dropped ensures id in SpooledTicks(s.spooled) { OnlyTicksAreDropped(s, id); }
    forall id | id in SpooledTicks(s.spooled) ensures id in s.store.archive || id in s.dropped {
      StoredOnceCaughtUp(s, s.spooled[id]);
      assert !Malformed(s.spooled[id]);
    }
  }

  lemma GapsArrive(s: State)
    requires Inv(s) && CaughtUp(s)
    ensures forall g :: g in s.store.gaps <==> g in s.spooled && s.spooled[g].kind == GapMarker
    ensures forall id :: id in s.dropped ==> s.dropped[id] in s.store.gaps
    ensures forall g :: g in s.store.gaps ==> s.store.gaps[g].droppedCount == |CountedIn(s.dropped, g)|
  {
    forall id | id in s.dropped
      ensures s.spooled[id].kind != GapMarker && s.dropped[id] in s.spooled
              && s.spooled[s.dropped[id]].kind == GapMarker
    {
      OnlyTicksAreDropped(s, id);
    }
    forall g | g in s.spooled && s.spooled[g].kind == GapMarker ensures g in s.store.gaps {
      StoredOnceCaughtUp(s, s.spooled[g]);
      assert !Malformed(s.spooled[g]);
    }
  }

  // Once the spool is empty and the consumer has caught up: the archive holds spooled ticks
  // only, each as it was spooled; a tick that is missing was dropped; every gap record arrived,
  // its count being exactly the ticks dropped under it; and every incident and behavior event
  // arrived as it was spooled.
  lemma ArchiveIsComplete(states: seq<State>, events: seq<Event>)
    requires Path(states, events) && states[0] == EMPTY && CaughtUp(states[|events|])
    ensures var s := states[|events|];
            && s.store.archive.Keys + s.dropped.Keys == SpooledTicks(s.spooled)
            && (forall id :: id in s.store.archive ==> TickRowOf(s.spooled[id]) == Some(s.store.archive[id]))
            && (forall id :: id in s.dropped ==> s.dropped[id] in s.store.gaps)
            && (forall g :: g in s.store.gaps <==> g in s.spooled && s.spooled[g].kind == GapMarker)
            && (forall g :: g in s.store.gaps ==> s.store.gaps[g].droppedCount == |CountedIn(s.dropped, g)|)
            && RollupsAgree(s.store.archive, s.store.rollups)
            && s.store.events.Keys == SpooledEvents(s.spooled)
            && (forall id :: id in s.store.events ==> EventRowOf(s.spooled[id]) == Some(s.store.events[id]))
  {
    EmptyIsSound();
    PathIsSound(states, events);
    var s := states[|events|];
    TicksArrive(s);
    GapsArrive(s);
    EventsArrive(s);
  }

  predicate IsEventKind(kind: Kind) { kind == IncidentChange || kind == BehaviorChange }

  // A stored row is the record of its id, field by field, under that record's machine and time.
  predicate StoredAs(store: Store, id: string, r: Record) {
    && (id in store.archive ==>
          && r.kind == Telemetry && r.data.TickData? && store.archive[id].tick == r.data.tick
          && store.archive[id].machineId == r.machineId && store.archive[id].ts == r.eventTime)
    && (id in store.gaps ==>
          && r.kind == GapMarker && r.data.GapData? && store.gaps[id].machineId == r.machineId
          && store.gaps[id].fromTs == r.data.gap.fromTs && store.gaps[id].toTs == r.data.gap.toTs
          && store.gaps[id].droppedCount == r.data.gap.droppedCount)
    && (id in store.events ==>
          && IsEventKind(r.kind) && r.data.EventData? && store.events[id].machineId == r.machineId
          && store.events[id].kind == r.kind && store.events[id].ts == r.eventTime
          && store.events[id].eventType == r.data.eventType && store.events[id].payload == r.data.payload)
  }

  // At any time of any run, what the cloud has stored is what was spooled at the edge.
  lemma StoredAsSpooled(states: seq<State>, events: seq<Event>, id: string)
    requires Path(states, events) && states[0] == EMPTY
    ensures var s := states[|events|];
            id in s.store.archive || id in s.store.gaps || id in s.store.events ==>
              id in s.spooled && StoredAs(s.store, id, s.spooled[id])
  {
    EmptyIsSound();
    PathIsSound(states, events);
    assert StoreIsSound(states[|events|].store, states[|events|].spooled);
  }
}
