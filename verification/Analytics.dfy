// Cloud analytics storage (backend/app/cloud/stream/analytics.py): a batch of stream records
// goes into de-duplicating tables, and the minute rollups it touches are rebuilt.
// Timestamps are in microseconds.
module Analytics {
  import opened Prelude
  import opened Sums
  import opened Spool

  const MINUTE := 60_000_000

  datatype TickRow = TickRow(machineId: string, ts: int, tick: Tick)
  datatype EventRow = EventRow(machineId: string, kind: Kind, eventType: string, ts: int, payload: string)

  datatype Rollup = Rollup(
    ticks: nat, engineOn: nat, working: nat, idle: nat, avgRpm: real, fuelUsed: real, loadCycles: real)

  // Cut down to the whole minute.
  function MinuteOf(ts: int): (minute: int)
    ensures minute <= ts < minute + 60_000_000 && minute % 60_000_000 == 0
  {
    ts - ts % MINUTE
  }

  // --- Decoding one record into a row; None is a malformed record --------------------

  function TickRowOf(r: Record): Option<TickRow> {
    if r.kind == Telemetry && r.data.TickData? then Some(TickRow(r.machineId, r.eventTime, r.data.tick)) else None
  }

  function GapRowOf(r: Record): Option<Gap> {
    if r.kind == GapMarker && r.data.GapData? then Some(r.data.gap.(machineId := r.machineId)) else None
  }

  function EventRowOf(r: Record): Option<EventRow> {
    if r.kind in {IncidentChange, BehaviorChange} && r.data.EventData? && r.data.eventType != ""
    then Some(EventRow(r.machineId, r.kind, r.data.eventType, r.eventTime, r.data.payload))
    else None
  }

  predicate Malformed(r: Record) {
    TickRowOf(r).None? && GapRowOf(r).None? && EventRowOf(r).None?
  }

  // A record is skipped for data of another kind than it announces, and an event for having no type.
  lemma MalformedExactly(r: Record)
    ensures Malformed(r) <==>
              match r.kind
              case Telemetry => !r.data.TickData?
              case GapMarker => !r.data.GapData?
              case _ => !r.data.EventData? || r.data.eventType == ""
  {
  }

  // --- The aggregate a rollup stands for --------------------------------------------

  function Group(archive: map<string, TickRow>, machineId: string, minute: int): map<string, TickRow> {
    map id | id in archive && archive[id].machineId == machineId && MinuteOf(archive[id].ts) == minute :: archive[id]
  }

  function On(g: map<string, TickRow>): set<string> {
    set id | id in g && g[id].tick.engineRunning
  }

  function Working(g: map<string, TickRow>): set<string> {
    set id | id in g && g[id].tick.engineRunning && g[id].tick.hydraulicActive
  }

  function Idle(g: map<string, TickRow>): set<string> {
    set id | id in g && g[id].tick.engineRunning && !g[id].tick.hydraulicActive && g[id].tick.machineSpeed == 0.0
  }

  ghost function Rpm(g: map<string, TickRow>): map<string, real> { map id | id in g :: g[id].tick.engineRpm }

  ghost function Cycles(g: map<string, TickRow>): map<string, real> {
    map id | id in g :: g[id].tick.loadCycles as real
  }

  ghost function Fuel(g: map<string, TickRow>): set<real> { set id | id in g :: g[id].tick.fuelUsed }

  ghost predicate Aggregates(g: map<string, TickRow>, r: Rollup) {
    && g != map[]
    && r.ticks == |g| && r.engineOn == |On(g)| && r.working == |Working(g)| && r.idle == |Idle(g)|
    && r.avgRpm == Sum(Rpm(g)) / |g| as real
    && r.loadCycles == Sum(Cycles(g))
    && exists hi, lo :: IsMax(Fuel(g), hi) && IsMin(Fuel(g), lo) && r.fuelUsed == hi - lo
  }

  // A rollup for exactly the minutes with archived ticks, each one their aggregate.
  ghost predicate RollupsAgree(archive: map<string, TickRow>, rollups: map<(string, int), Rollup>) {
    forall m: string, b: int ::
      && ((m, b) in rollups <==> Group(archive, m, b) != map[])
      && ((m, b) in rollups ==> Aggregates(Group(archive, m, b), rollups[(m, b)]))
  }

  // Rollups are determined by the archive.
  lemma AggregateIsUnique(g: map<string, TickRow>, r: Rollup, s: Rollup)
    requires Aggregates(g, r) && Aggregates(g, s)
    ensures r == s
  {
  }

  lemma RollupsAreDetermined(archive: map<string, TickRow>,
                             a: map<(string, int), Rollup>, b: map<(string, int), Rollup>)
    requires RollupsAgree(archive, a) && RollupsAgree(archive, b)
    ensures a == b
  {
    forall k: (string, int) ensures k in a <==> k in b ensures k in a ==> a[k] == b[k] {
      var (m, t) := k;
      if (m, t) in a { AggregateIsUnique(Group(archive, m, t), a[(m, t)], b[(m, t)]); }
    }
  }

  // --- The rollup query -------------------------------------------------------------

  // The rows the statement reads: one machine, one minute, inside [first, last).
  function Window(archive: map<string, TickRow>, machineId: string, first: int, last: int, minute: int)
    : map<string, TickRow>
  {
    map id | id in archive && archive[id].machineId == machineId && first <= archive[id].ts < last
             && MinuteOf(archive[id].ts) == minute :: archive[id]
  }

  // The time window never cuts into a minute that is being rebuilt.
  lemma WindowHoldsTheMinute(archive: map<string, TickRow>, machineId: string, first: int, last: int, minute: int)
    requires first <= minute && minute + MINUTE <= last
    ensures Window(archive, machineId, first, last, minute) == Group(archive, machineId, minute)
  {
    forall id | id in archive && MinuteOf(archive[id].ts) == minute ensures first <= archive[id].ts < last {
      assert 0 <= archive[id].ts % MINUTE < MINUTE;
    }
  }

  // Running totals of the single pass.
  datatype Totals = Totals(ticks: nat, engineOn: nat, working: nat, idle: nat, rpm: real, cycles: real)

  ghost predicate Counts(seen: map<string, TickRow>, t: Totals) {
    && t.ticks == |seen| && t.engineOn == |On(seen)| && t.working == |Working(seen)| && t.idle == |Idle(seen)|
    && t.rpm == Sum(Rpm(seen)) && t.cycles == Sum(Cycles(seen))
  }

  function Added(t: Totals, x: Tick): Totals {
    Totals(t.ticks + 1,
           t.engineOn + (if x.engineRunning then 1 else 0),
           t.working + (if x.engineRunning && x.hydraulicActive then 1 else 0),
           t.idle + (if x.engineRunning && !x.hydraulicActive && x.machineSpeed == 0.0 then 1 else 0),
           t.rpm + x.engineRpm,
           t.cycles + x.loadCycles as real)
  }

  lemma SetsGrow(seen: map<string, TickRow>, id: string, row: TickRow)
    requires id !in seen
    ensures var x := row.tick;
            && On(seen[id := row]) == On(seen) + (if x.engineRunning then {id} else {})
            && Working(seen[id := row]) == Working(seen) + (if x.engineRunning && x.hydraulicActive then {id} else {})
            && Idle(seen[id := row]) == Idle(seen)
                 + (if x.engineRunning && !x.hydraulicActive && x.machineSpeed == 0.0 then {id} else {})
  {
  }

  lemma SumsGrow(seen: map<string, TickRow>, id: string, row: TickRow)
    requires id !in seen
    ensures Sum(Rpm(seen[id := row])) == Sum(Rpm(seen)) + row.tick.engineRpm
    ensures Sum(Cycles(seen[id := row])) == Sum(Cycles(seen)) + row.tick.loadCycles as real
  {
    assert Rpm(seen[id := row]) == Rpm(seen)[id := row.tick.engineRpm];
    SumInsert(Rpm(seen), id, row.tick.engineRpm);
    assert Cycles(seen[id := row]) == Cycles(seen)[id := row.tick.loadCycles as real];
    SumInsert(Cycles(seen), id, row.tick.loadCycles as real);
  }

  lemma SizesGrow(seen: map<string, TickRow>, id: string, row: TickRow)
    requires id !in seen
    ensures var x := row.tick;
            && |seen[id := row]| == |seen| + 1
            && |On(seen[id := row])| == |On(seen)| + (if x.engineRunning then 1 else 0)
            && |Working(seen[id := row])| == |Working(seen)| + (if x.engineRunning && x.hydraulicActive then 1 else 0)
            && |Idle(seen[id := row])| == |Idle(seen)|
                 + (if x.engineRunning && !x.hydraulicActive && x.machineSpeed == 0.0 then 1 else 0)
  {
    SetsGrow(seen, id, row);
    assert id !in On(seen) && id !in Working(seen) && id !in Idle(seen);
  }

  lemma CountsGrow(seen: map<string, TickRow>, id: string, row: TickRow, t: Totals)
    requires id !in seen && Counts(seen, t)
    ensures Counts(seen[id := row], Added(t, row.tick))
  {
    SizesGrow(seen, id, row);
    SumsGrow(seen, id, row);
  }

  // lo and hi are fuel readings of g and enclose the readings seen so far.
  ghost predicate Spans(g: map<string, TickRow>, seen: map<string, TickRow>, lo: real, hi: real) {
    lo in Fuel(g) && hi in Fuel(g) && forall id :: id in seen ==> lo <= seen[id].tick.fuelUsed <= hi
  }

  ghost predicate Passed(g: map<string, TickRow>, seen: map<string, TickRow>, t: Totals, lo: real, hi: real) {
    Counts(seen, t) && Spans(g, seen, lo, hi)
  }

  lemma PassGrows(g: map<string, TickRow>, todo: set<string>, id: string, t: Totals, lo: real, hi: real)
    requires todo <= g.Keys && id in todo && Passed(g, g - todo, t, lo, hi)
    ensures var x := g[id].tick;
            Passed(g, g - (todo - {id}), Added(t, x), Min(lo, x.fuelUsed), Max(hi, x.fuelUsed))
  {
    var seen := g - todo;
    assert g - (todo - {id}) == seen[id := g[id]];
    CountsGrow(seen, id, g[id], t);
    assert g[id].tick.fuelUsed in Fuel(g);
  }

  lemma PassEnds(g: map<string, TickRow>, t: Totals, lo: real, hi: real)
    requires g != map[] && Passed(g, g, t, lo, hi)
    ensures t.ticks != 0
    ensures Aggregates(g, Rollup(t.ticks, t.engineOn, t.working, t.idle, t.rpm / t.ticks as real, hi - lo, t.cycles))
  {
    assert IsMax(Fuel(g), hi) && IsMin(Fuel(g), lo);
  }

  lemma PassStarts(g: map<string, TickRow>, start: string)
    requires start in g
    ensures Passed(g, g - g.Keys, Totals(0, 0, 0, 0, 0.0, 0.0), g[start].tick.fuelUsed, g[start].tick.fuelUsed)
  {
    assert g - g.Keys == map[];
    assert g[start].tick.fuelUsed in Fuel(g);
  }

  // The pass over the rows of one group.
  method SinglePass(g: map<string, TickRow>) returns (totals: Totals, lo: real, hi: real)
    requires g != map[]
    ensures Passed(g, g, totals, lo, hi)
  {
    var start :| start in g;
    var todo := g.Keys;
    totals := Totals(0, 0, 0, 0, 0.0, 0.0);
    lo, hi := g[start].tick.fuelUsed, g[start].tick.fuelUsed;
    PassStarts(g, start);
    while todo != {}
      invariant todo <= g.Keys
      invariant Passed(g, g - todo, totals, lo, hi)
      decreases |todo|
    {
      var id :| id in todo;
      PassGrows(g, todo, id, totals, lo, hi);
      totals := Added(totals, g[id].tick);
      lo := Min(lo, g[id].tick.fuelUsed);
      hi := Max(hi, g[id].tick.fuelUsed);
      todo := todo - {id};
    }
    assert g - todo == g;
  }

  // One output row of the statement.
  method Aggregate(g: map<string, TickRow>) returns (r: Rollup)
    requires g != map[]
    ensures Aggregates(g, r)
  {
    var totals, lo, hi := SinglePass(g);
    PassEnds(g, totals, lo, hi);
    r := Rollup(totals.ticks, totals.engineOn, totals.working, totals.idle,
                totals.rpm / totals.ticks as real, hi - lo, totals.cycles);
  }

  // --- Storing a batch --------------------------------------------------------------

  // The rows of a batch by event id; a later record of the batch replaces an earlier one.
  function Collected<V>(batch: seq<Record>, decode: Record -> Option<V>): map<string, V> {
    if batch == [] then map[]
    else
      var r := batch[|batch| - 1];
      var before := Collected(batch[..|batch| - 1], decode);
      if decode(r).Some? then before[r.eventId := decode(r).value] else before
  }

  function CountMalformed(batch: seq<Record>): nat {
    if batch == [] then 0
    else CountMalformed(batch[..|batch| - 1]) + if Malformed(batch[|batch| - 1]) then 1 else 0
  }

  ghost predicate Touched(rows: map<string, TickRow>, m: string, b: int) {
    exists id :: id in rows && rows[id].machineId == m && MinuteOf(rows[id].ts) == b
  }

  // A minute no new tick falls into keeps its group.
  lemma UntouchedGroup(archive: map<string, TickRow>, added: map<string, TickRow>, m: string, b: int)
    requires !Touched(added, m, b) && added.Keys !! archive.Keys
    ensures Group(archive + added, m, b) == Group(archive, m, b)
  {
  }

  datatype ApplyResult = ApplyResult(stored: nat, duplicates: int, malformed: nat)

  class AnalyticsStore {
    var archive: map<string, TickRow>
    var gaps: map<string, Gap>
    var events: map<string, EventRow>
    var rollups: map<(string, int), Rollup>

    method ApplyRecords(batch: seq<Record>) returns (result: ApplyResult)
      requires RollupsAgree(archive, rollups)
      modifies this
      ensures archive == Collected(batch, TickRowOf) + old(archive)
      ensures gaps == Collected(batch, GapRowOf) + old(gaps)
      ensures events == Collected(batch, EventRowOf) + old(events)
      ensures RollupsAgree(archive, rollups)
      ensures result.stored == |archive| - |old(archive)| + |gaps| - |old(gaps)| + |events| - |old(events)|
      ensures result.malformed == CountMalformed(batch)
      ensures result.stored + result.duplicates + result.malformed == |batch|
    {
      var newTicks;
      result, newTicks := InsertRows(batch);
      RefreshRollups(old(archive), newTicks);
    }

    // Batch after batch into an empty store.
    method ApplyAll(batches: seq<seq<Record>>)
      requires archive == map[] && gaps == map[] && events == map[] && rollups == map[]
      modifies this
      ensures archive == Stored(batches, TickRowOf) && gaps == Stored(batches, GapRowOf)
      ensures events == Stored(batches, EventRowOf) && RollupsAgree(archive, rollups)
    {
      for k := 0 to |batches|
        invariant archive == Stored(batches[..k], TickRowOf) && gaps == Stored(batches[..k], GapRowOf)
        invariant events == Stored(batches[..k], EventRowOf) && RollupsAgree(archive, rollups)
      {
        assert batches[..k + 1][..k] == batches[..k];
        var _ := ApplyRecords(batches[k]);
      }
      assert batches[..|batches|] == batches;
    }

    // The three inserts, and the ticks that were new.
    method InsertRows(batch: seq<Record>) returns (result: ApplyResult, newTicks: map<string, TickRow>)
      modifies this`archive, this`gaps, this`events
      ensures archive == Collected(batch, TickRowOf) + old(archive)
      ensures gaps == Collected(batch, GapRowOf) + old(gaps)
      ensures events == Collected(batch, EventRowOf) + old(events)
      ensures newTicks.Keys !! old(archive).Keys && archive == old(archive) + newTicks
      ensures result.stored == |archive| - |old(archive)| + |gaps| - |old(gaps)| + |events| - |old(events)|
      ensures result.malformed == CountMalformed(batch)
      ensures result.stored + result.duplicates + result.malformed == |batch|
    {
      var ticks, gapRows, eventRows, malformed := Decode(batch);
      var newGaps, newEvents;
      archive, newTicks := InsertNew(archive, ticks);
      gaps, newGaps := InsertNew(gaps, gapRows);
      events, newEvents := InsertNew(events, eventRows);
      var stored := |newTicks| + |newGaps| + |newEvents|;
      result := ApplyResult(stored, |batch| - malformed - stored, malformed);
    }

    // The rollups of the minutes that received new ticks.
    method RefreshRollups(ghost before: map<string, TickRow>, newTicks: map<string, TickRow>)
      requires newTicks.Keys !! before.Keys && archive == before + newTicks && RollupsAgree(before, rollups)
      modifies this`rollups
      ensures RollupsAgree(archive, rollups)
    {
      var buckets := TouchedMinutes(newTicks);
      RecomputeRollups(buckets);
      RollupsFollow(before, newTicks, old(rollups), rollups, Pairs(buckets, buckets.Keys));
    }

    // Rebuild the given (machine, minute) rollups from the archive.
    method RecomputeRollups(buckets: map<string, set<int>>)
      requires forall m :: m in buckets ==> buckets[m] != {}
      modifies this`rollups
      ensures RebuiltOn(archive, old(rollups), rollups, Pairs(buckets, buckets.Keys))
    {
      var machines := buckets.Keys;
      while machines != {}
        invariant machines <= buckets.Keys
        invariant RebuiltOn(archive, old(rollups), rollups, Pairs(buckets, buckets.Keys - machines))
        decreases |machines|
      {
        var m :| m in machines;
        ghost var before := rollups;
        RecomputeMachine(m, buckets[m]);
        RebuiltTwice(archive, old(rollups), before, rollups, Pairs(buckets, buckets.Keys - machines),
                     set b | b in buckets[m] :: (m, b));
        assert Pairs(buckets, buckets.Keys - (machines - {m}))
            == Pairs(buckets, buckets.Keys - machines) + (set b | b in buckets[m] :: (m, b));
        machines := machines - {m};
      }
      assert buckets.Keys - machines == buckets.Keys;
    }

    // One execution of the statement: the minutes of one machine, inside their time window.
    method RecomputeMachine(machineId: string, minutes: set<int>)
      requires minutes != {}
      modifies this`rollups
      ensures RebuiltOn(archive, old(rollups), rollups, set b | b in minutes :: (machineId, b))
    {
      var first, newest := Ends(minutes);
      var last := newest + MINUTE;
      var todo := minutes;
      while todo != {}
        invariant todo <= minutes
        invariant RebuiltOn(archive, old(rollups), rollups, set b | b in minutes - todo :: (machineId, b))
        decreases |todo|
      {
        SomeMember(todo);
        var b :| b in todo;
        ghost var before := rollups;
        var group := Window(archive, machineId, first, last, b);
        WindowHoldsTheMinute(archive, machineId, first, last, b);
        if group != map[] {
          var r := Aggregate(group);
          rollups := rollups[(machineId, b) := r];
        }
        RebuiltTwice(archive, old(rollups), before, rollups, set c | c in minutes - todo :: (machineId, c),
                     {(machineId, b)});
        assert (set c | c in minutes - (todo - {b}) :: (machineId, c))
            == (set c | c in minutes - todo :: (machineId, c)) + {(machineId, b)};
        todo := todo - {b};
      }
      assert minutes - todo == minutes;
    }
  }

  function Pairs(buckets: map<string, set<int>>, machines: set<string>): set<(string, int)> {
    set m, b | m in machines && m in buckets && b in buckets[m] :: (m, b)
  }

  // The selected entries were recomputed (or left alone when their group is empty); the
  // others are as before.
  ghost predicate RebuiltOn(archive: map<string, TickRow>, before: map<(string, int), Rollup>,
                            after: map<(string, int), Rollup>, selected: set<(string, int)>) {
    forall m: string, b: int :: Rebuilt(archive, before, after, m, b, selected)
  }

  ghost predicate Rebuilt(archive: map<string, TickRow>, before: map<(string, int), Rollup>,
                          after: map<(string, int), Rollup>, m: string, b: int, selected: set<(string, int)>) {
    var g := Group(archive, m, b);
    if (m, b) in selected && g != map[] then (m, b) in after && Aggregates(g, after[(m, b)])
    else Get(after, (m, b)) == Get(before, (m, b))
  }

  lemma RebuiltTwice(archive: map<string, TickRow>, before: map<(string, int), Rollup>, mid: map<(string, int), Rollup>,
                     after: map<(string, int), Rollup>, first: set<(string, int)>, second: set<(string, int)>)
    requires RebuiltOn(archive, before, mid, first) && RebuiltOn(archive, mid, after, second)
    ensures RebuiltOn(archive, before, after, first + second)
  {
    forall m: string, b: int ensures Rebuilt(archive, before, after, m, b, first + second) {
      assert Rebuilt(archive, before, mid, m, b, first) && Rebuilt(archive, mid, after, m, b, second);
    }
  }

  // Insert the rows whose keys the table does not have; stored rows win.
  method InsertNew<V>(table: map<string, V>, rows: map<string, V>)
    returns (merged: map<string, V>, added: map<string, V>)
    ensures merged == rows + table && merged == table + added && added.Keys !! table.Keys
    ensures |merged| == |table| + |added|
  {
    added := rows - table.Keys;
    merged := table + added;
    InsertingNew(table, rows);
  }

  // Inserting the rows with new keys is a merge in which stored rows win.
  lemma InsertingNew<V>(table: map<string, V>, rows: map<string, V>)
    ensures table + (rows - table.Keys) == rows + table
    ensures |rows + table| == |table| + |rows - table.Keys|
  {
    MergingNew(table, rows);
    DisjointSize(table, rows - table.Keys);
  }

  lemma MergingNew<V>(table: map<string, V>, rows: map<string, V>)
    ensures table + (rows - table.Keys) == rows + table
  {
    var a, b := table + (rows - table.Keys), rows + table;
    assert a.Keys == b.Keys;
    forall k | k in a ensures a[k] == b[k] {
      if k in table { assert k !in rows - table.Keys; }
    }
  }

  lemma DisjointSize<V>(a: map<string, V>, b: map<string, V>)
    requires a.Keys !! b.Keys
    ensures |a + b| == |a| + |b|
  {
    assert (a + b).Keys == a.Keys + b.Keys;
    assert |a.Keys + b.Keys| == |a.Keys| + |b.Keys|;
  }

  lemma RollupsFollow(archive: map<string, TickRow>, added: map<string, TickRow>,
                      before: map<(string, int), Rollup>, after: map<(string, int), Rollup>,
                      selected: set<(string, int)>)
    requires RollupsAgree(archive, before) && added.Keys !! archive.Keys
    requires RebuiltOn(archive + added, before, after, selected)
    requires forall m: string, b: int :: (m, b) in selected <==> Touched(added, m, b)
    ensures RollupsAgree(archive + added, after)
  {
    forall m: string, b: int
      ensures (m, b) in after <==> Group(archive + added, m, b) != map[]
      ensures (m, b) in after ==> Aggregates(Group(archive + added, m, b), after[(m, b)])
    {
      assert Rebuilt(archive + added, before, after, m, b, selected);
      if Touched(added, m, b) {
        var id :| id in added && added[id].machineId == m && MinuteOf(added[id].ts) == b;
        assert id in Group(archive + added, m, b);
      } else {
        UntouchedGroup(archive, added, m, b);
        assert (m, b) in after <==> (m, b) in before;
      }
    }
  }

  // The first loop of apply_records, and the three dictionaries built from its lists.
  method Decode(batch: seq<Record>)
    returns (ticks: map<string, TickRow>, gaps: map<string, Gap>, events: map<string, EventRow>, malformed: nat)
    ensures ticks == Collected(batch, TickRowOf) && gaps == Collected(batch, GapRowOf)
    ensures events == Collected(batch, EventRowOf)
    ensures malformed == CountMalformed(batch)
  {
    ticks, gaps, events, malformed := map[], map[], map[], 0;
    for k := 0 to |batch|
      invariant ticks == Collected(batch[..k], TickRowOf) && gaps == Collected(batch[..k], GapRowOf)
      invariant events == Collected(batch[..k], EventRowOf) && malformed == CountMalformed(batch[..k])
    {
      var r := batch[k];
      assert batch[..k + 1][..k] == batch[..k];
      if r.kind == Telemetry {
        if TickRowOf(r).Some? { ticks := ticks[r.eventId := TickRowOf(r).value]; } else { malformed := malformed + 1; }
      } else if r.kind == GapMarker {
        if GapRowOf(r).Some? { gaps := gaps[r.eventId := GapRowOf(r).value]; } else { malformed := malformed + 1; }
      } else {
        if EventRowOf(r).Some? {
          events := events[r.eventId := EventRowOf(r).value];
        } else {
          malformed := malformed + 1;
        }
      }
    }
    assert batch[..|batch|] == batch;
  }

  method TouchedMinutes(rows: map<string, TickRow>) returns (buckets: map<string, set<int>>)
    ensures forall m :: m in buckets ==> buckets[m] != {}
    ensures forall m: string, b: int :: Touched(rows, m, b) <==> m in buckets && b in buckets[m]
  {
    buckets := map[];
    var todo := rows.Keys;
    while todo != {}
      invariant todo <= rows.Keys
      invariant forall m :: m in buckets ==> buckets[m] != {}
      invariant forall m: string, b: int :: Touched(rows - todo, m, b) <==> m in buckets && b in buckets[m]
      decreases |todo|
    {
      var id :| id in todo;
      var m, b := rows[id].machineId, MinuteOf(rows[id].ts);
      ghost var before := buckets;
      buckets := buckets[m := (if m in buckets then buckets[m] else {}) + {b}];
      forall n: string, c: int
        ensures Touched(rows - (todo - {id}), n, c) <==> n in buckets && c in buckets[n]
      {
        TouchedOneMore(rows, todo, id, n, c);
        assert Touched(rows - todo, n, c) <==> n in before && c in before[n];
      }
      todo := todo - {id};
    }
    assert rows - todo == rows;
  }

  lemma TouchedOneMore(rows: map<string, TickRow>, todo: set<string>, id: string, m: string, b: int)
    requires id in todo && id in rows
    ensures Touched(rows - (todo - {id}), m, b)
       <==> Touched(rows - todo, m, b) || (rows[id].machineId == m && MinuteOf(rows[id].ts) == b)
  {
    var more := rows - (todo - {id});
    assert id in more && more[id] == rows[id];
    if Touched(rows - todo, m, b) {
      var k :| k in rows - todo && (rows - todo)[k].machineId == m && MinuteOf((rows - todo)[k].ts) == b;
      assert k in more && more[k] == rows[k];
    }
    if Touched(more, m, b) {
      var k :| k in more && more[k].machineId == m && MinuteOf(more[k].ts) == b;
      assert k == id || k in rows - todo;
    }
  }

  method Ends(s: set<int>) returns (lo: int, hi: int)
    requires s != {}
    ensures forall x :: x in s ==> lo <= x <= hi
  {
    SomeMember(s);
    lo :| lo in s;
    hi := lo;
    var todo := s;
    while todo != {}
      invariant todo <= s
      invariant forall x :: x in s && x !in todo ==> lo <= x <= hi
      decreases |todo|
    {
      SomeMember(todo);
      var x :| x in todo;
      if x < lo { lo := x; }
      if x > hi { hi := x; }
      todo := todo - {x};
    }
  }

  // --- Reordering, re-batching and duplication --------------------------------------

  // A table after the given batches, starting empty.
  function Stored<V>(batches: seq<seq<Record>>, decode: Record -> Option<V>): map<string, V> {
    if batches == [] then map[]
    else Collected(batches[|batches| - 1], decode) + Stored(batches[..|batches| - 1], decode)
  }

  ghost predicate Sent(batches: seq<seq<Record>>, r: Record) {
    exists k :: 0 <= k < |batches| && r in batches[k]
  }

  // The records of one event agree wherever they occur: a resend repeats the same row.
  ghost predicate Consistent(batches: seq<seq<Record>>) {
    forall r, s :: Sent(batches, r) && Sent(batches, s) && r.eventId == s.eventId ==> r == s
  }

  predicate Decodes<V>(r: Record, id: string, decode: Record -> Option<V>) {
    r.eventId == id && decode(r).Some?
  }

  lemma {:induction false} CollectedExactly<V>(batch: seq<Record>, decode: Record -> Option<V>, id: string)
    ensures id in Collected(batch, decode) <==> exists r :: r in batch && Decodes(r, id, decode)
    ensures id in Collected(batch, decode) ==>
              exists r :: r in batch && Decodes(r, id, decode) && Collected(batch, decode)[id] == decode(r).value
  {
    if batch != [] {
      var before, r := batch[..|batch| - 1], batch[|batch| - 1];
      CollectedExactly(before, decode, id);
      assert batch == before + [r];
      if Decodes(r, id, decode) {
        assert r in batch && Collected(batch, decode)[id] == decode(r).value;
      } else {
        assert forall s :: s in batch && Decodes(s, id, decode) <==> s in before && Decodes(s, id, decode);
      }
    }
  }

  lemma {:induction false} StoredExactly<V>(batches: seq<seq<Record>>, decode: Record -> Option<V>, id: string)
    ensures id in Stored(batches, decode) <==> exists r :: Sent(batches, r) && Decodes(r, id, decode)
    ensures id in Stored(batches, decode) ==>
              exists r :: Sent(batches, r) && Decodes(r, id, decode) && Stored(batches, decode)[id] == decode(r).value
  {
    if batches != [] {
      var before, batch := batches[..|batches| - 1], batches[|batches| - 1];
      StoredExactly(before, decode, id);
      CollectedExactly(batch, decode, id);
      assert batches == before + [batch];
      forall r ensures Sent(batches, r) <==> Sent(before, r) || r in batch {
        if r in batch { assert r in batches[|batches| - 1]; }
        if Sent(before, r) {
          var k :| 0 <= k < |before| && r in before[k];
          assert r in batches[k];
        }
      }
    }
  }

  // The same records in any order, split into any batches, any number of times, give the
  // same table.
  lemma SameRecordsSameTable<V>(a: seq<seq<Record>>, b: seq<seq<Record>>, decode: Record -> Option<V>)
    requires Consistent(a) && forall r :: Sent(a, r) <==> Sent(b, r)
    ensures Stored(a, decode) == Stored(b, decode)
  {
    var x, y := Stored(a, decode), Stored(b, decode);
    forall id ensures id in x <==> id in y ensures id in x ==> x[id] == y[id] {
      StoredExactly(a, decode, id);
      StoredExactly(b, decode, id);
    }
  }

  lemma BatchingDoesNotMatter(a: seq<seq<Record>>, b: seq<seq<Record>>,
                              ra: map<(string, int), Rollup>, rb: map<(string, int), Rollup>)
    requires Consistent(a) && forall r :: Sent(a, r) <==> Sent(b, r)
    requires RollupsAgree(Stored(a, TickRowOf), ra) && RollupsAgree(Stored(b, TickRowOf), rb)
    ensures Stored(a, TickRowOf) == Stored(b, TickRowOf) && ra == rb
    ensures Stored(a, GapRowOf) == Stored(b, GapRowOf) && Stored(a, EventRowOf) == Stored(b, EventRowOf)
  {
    SameRecordsSameTable(a, b, TickRowOf);
    SameRecordsSameTable(a, b, GapRowOf);
    SameRecordsSameTable(a, b, EventRowOf);
    RollupsAreDetermined(Stored(a, TickRowOf), ra, rb);
  }
}
