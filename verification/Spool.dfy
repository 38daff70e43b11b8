// The edge spool (backend/app/edge/stream/spool.py) and what the forwarder may delete from it
// (backend/app/edge/stream/forwarder.py). Records are kept in sequence order.
module Spool {
  import opened Prelude

  datatype Kind = Telemetry | GapMarker | IncidentChange | BehaviorChange

  datatype Tick = Tick(
    engineRunning: bool, engineRpm: real, hydraulicActive: bool, machineSpeed: real, fuelUsed: real, loadCycles: int,
    rest: string)

  // Ticks dropped from a full spool: machine, time range, count.
  datatype Gap = Gap(machineId: string, fromTs: int, toTs: int, droppedCount: nat)

  // Broken is a payload with missing or mistyped fields.
  datatype Data = TickData(tick: Tick) | GapData(gap: Gap) | EventData(eventType: string, payload: string) | Broken

  datatype Record = Record(number: int, eventId: string, kind: Kind, machineId: string, eventTime: int, data: Data)

  function Priority(kind: Kind): int {
    match kind
    case GapMarker => 0
    case IncidentChange => 1
    case BehaviorChange => 1
    case Telemetry => 2
  }

  // Record numbers grow with insertion.
  ghost predicate Ordered(rows: seq<Record>, last: int) {
    && (forall i, j :: 0 <= i < j < |rows| ==> rows[i].number < rows[j].number)
    && (forall i :: 0 <= i < |rows| ==> rows[i].number <= last)
  }

  function Ticks(rows: seq<Record>): seq<Record> {
    if rows == [] then []
    else (if rows[0].kind == Telemetry then [rows[0]] else []) + Ticks(rows[1..])
  }

  function OfMachine(rows: seq<Record>, machineId: string): seq<Record> {
    if rows == [] then []
    else OfMachine(rows[..|rows| - 1], machineId)
         + if rows[|rows| - 1].machineId == machineId then [rows[|rows| - 1]] else []
  }

  // Rows left after `DELETE ... WHERE seq IN numbers`.
  function Without(rows: seq<Record>, numbers: set<int>): seq<Record> {
    if rows == [] then []
    else (if rows[0].number in numbers then [] else [rows[0]]) + Without(rows[1..], numbers)
  }

  ghost function Numbers(rows: seq<Record>): set<int> {
    set i | 0 <= i < |rows| :: rows[i].number
  }

  // Python's int(): towards zero.
  function Truncated(x: real): int {
    if x >= 0.0 then x.Floor else -(-x).Floor
  }

  function LowCount(maxRecords: nat, lowWater: real): int {
    Truncated(maxRecords as real * lowWater)
  }

  // --- One gap per machine, exact in count and range --------------------------------

  ghost predicate GapIsExact(dropped: seq<Record>, gap: Gap) {
    var own := OfMachine(dropped, gap.machineId);
    && gap.droppedCount == |own| && own != []
    && (forall i :: 0 <= i < |own| ==> gap.fromTs <= own[i].eventTime <= gap.toTs)
    && (exists i :: 0 <= i < |own| && own[i].eventTime == gap.fromTs)
    && (exists i :: 0 <= i < |own| && own[i].eventTime == gap.toTs)
  }

  ghost predicate GapsAreExact(dropped: seq<Record>, gaps: seq<Gap>) {
    && (forall k :: 0 <= k < |gaps| ==> GapIsExact(dropped, gaps[k]))
    && (forall i, j :: 0 <= i < j < |gaps| ==> gaps[i].machineId != gaps[j].machineId)
    && (forall i :: 0 <= i < |dropped| ==> HasGap(gaps, dropped[i].machineId))
  }

  predicate HasGap(gaps: seq<Gap>, machineId: string) {
    exists k :: 0 <= k < |gaps| && gaps[k].machineId == machineId
  }

  // The gap records that take the place of the dropped ticks.
  ghost predicate AreGapRecords(records: seq<Record>, gaps: seq<Gap>, last: int) {
    && |records| == |gaps|
    && forall k :: 0 <= k < |gaps| ==>
         && records[k].kind == GapMarker && records[k].data == GapData(gaps[k])
         && records[k].machineId == gaps[k].machineId && records[k].eventTime == gaps[k].toTs
         && records[k].number == last + 1 + k
  }

  // The new records carry the fresh event ids, in order.
  ghost predicate UsesIds(records: seq<Record>, newIds: seq<string>) {
    |records| <= |newIds| && forall k :: 0 <= k < |records| ==> records[k].eventId == newIds[k]
  }

  datatype LimitError = NegativeLimit

  // The level a full spool is brought down to: as many whole ticks as the low-water share of the
  // limit holds, none for a negative share.
  predicate IsLowWater(k: int, maxRecords: nat, lowWater: real) {
    if lowWater < 0.0 then k == 0 else k as real <= maxRecords as real * lowWater < (k + 1) as real
  }

  // A full spool ends at the low-water level, or the call is refused because it has no more than that.
  predicate EndsAt(backlog: nat, maxRecords: nat, lowWater: real, left: nat, outcome: Result<seq<Gap>, LimitError>) {
    if maxRecords as real * lowWater >= (backlog + 1) as real then outcome == Err(NegativeLimit) && left == backlog
    else outcome.Ok? && IsLowWater(left, maxRecords, lowWater)
  }

  // What one call of enforce_limit does to the spool.
  ghost predicate LimitEnforced(rows: seq<Record>, last: int, maxRecords: nat, lowWater: real,
                                rows': seq<Record>, outcome: Result<seq<Gap>, LimitError>) {
    var backlog := |Ticks(rows)|;
    var excess := backlog - LowCount(maxRecords, lowWater);
    if backlog <= maxRecords then rows' == rows && outcome == Ok([])
    else if excess < 0 then rows' == rows && outcome == Err(NegativeLimit)
    else outcome.Ok? && OldestDropped(rows, last, excess, rows', outcome.value)
  }

  function Oldest(rows: seq<Record>, excess: nat): seq<Record> {
    Ticks(rows)[..if excess <= |Ticks(rows)| then excess else |Ticks(rows)|]
  }

  ghost predicate OldestDropped(rows: seq<Record>, last: int, excess: nat, rows': seq<Record>, gaps: seq<Gap>) {
    var dropped := Oldest(rows, excess);
    && GapsAreExact(dropped, gaps)
    && |rows'| >= |gaps|
    && rows'[..|rows'| - |gaps|] == Without(rows, Numbers(dropped))
    && AreGapRecords(rows'[|rows'| - |gaps|..], gaps, last)
  }

  class SpoolTable {
    var rows: seq<Record>
    var last: int               // sequence of the newest record ever written
    var written: nat
    var writeFailures: nat

    // _add: the write sits in a savepoint, so a failure only counts.
    method Add(kind: Kind, machineId: string, eventTime: int, data: Data, eventId: string, fails: bool)
      requires Ordered(rows, last)
      modifies this
      ensures Ordered(rows, last)
      ensures rows == if fails then old(rows) else old(rows) + [Record(last, eventId, kind, machineId, eventTime, data)]
      ensures last == old(last) + if fails then 0 else 1
      ensures written + writeFailures == old(written) + old(writeFailures) + 1
    {
      if fails {
        writeFailures := writeFailures + 1;
      } else {
        last := last + 1;
        rows := rows + [Record(last, eventId, kind, machineId, eventTime, data)];
        written := written + 1;
      }
    }

    method EnforceLimit(maxRecords: nat, lowWater: real, newIds: seq<string>)
      returns (outcome: Result<seq<Gap>, LimitError>)
      requires Ordered(rows, last) && |newIds| >= |rows|
      modifies this`rows, this`last
      ensures LimitEnforced(old(rows), old(last), maxRecords, lowWater, rows, outcome)
      ensures |Ticks(old(rows))| > maxRecords ==>
                EndsAt(|Ticks(old(rows))|, maxRecords, lowWater, |Ticks(rows)|, outcome)
      ensures Ordered(rows, last) && last == old(last) + if outcome.Ok? then |outcome.value| else 0
      ensures outcome.Ok? ==> |rows| >= |outcome.value| && UsesIds(rows[|rows| - |outcome.value|..], newIds)
    {
      var backlog := |Ticks(rows)|;
      if backlog <= maxRecords {
        return Ok([]);
      }
      var excess := backlog - LowCount(maxRecords, lowWater);
      if excess < 0 {
        outcome := Err(NegativeLimit);
        LimitOutcome(rows, last, maxRecords, lowWater, rows, outcome);
        return;
      }
      var gaps := DropOldest(excess, newIds);
      outcome := Ok(gaps);
      LimitOutcome(old(rows), old(last), maxRecords, lowWater, rows, outcome);
    }

    method DropOldest(excess: nat, newIds: seq<string>) returns (gaps: seq<Gap>)
      requires Ordered(rows, last) && |newIds| >= |rows|
      modifies this`rows, this`last
      ensures OldestDropped(old(rows), old(last), excess, rows, gaps)
      ensures Ordered(rows, last) && last == old(last) + |gaps|
      ensures |rows| >= |gaps| && UsesIds(rows[|rows| - |gaps|..], newIds)
    {
      TicksAreRows(rows);
      var dropped := Oldest(rows, excess);
      var byMachine, machines := GroupByMachine(dropped);
      var markers;
      gaps, markers := MarkGaps(dropped, byMachine, machines, newIds, last);
      var numbers := set r | r in dropped :: r.number;
      assert numbers == Numbers(dropped);
      var kept := Without(rows, numbers);
      WithoutIsOrdered(rows, numbers, last);
      MarkersAreOrdered(kept, markers, gaps, last);
      rows := kept + markers;
      last := last + |markers|;
      assert rows[..|rows| - |gaps|] == kept && rows[|rows| - |gaps|..] == markers;
    }
  }

  lemma MarkersAreOrdered(kept: seq<Record>, markers: seq<Record>, gaps: seq<Gap>, last: int)
    requires Ordered(kept, last) && AreGapRecords(markers, gaps, last)
    ensures Ordered(kept + markers, last + |markers|)
  {
  }

  // byMachine groups rows by machine; machines lists its keys, each once.
  ghost predicate Grouped(rows: seq<Record>, byMachine: map<string, seq<Record>>) {
    forall m ::
      && (m in byMachine <==> OfMachine(rows, m) != [])
      && (m in byMachine ==> byMachine[m] == OfMachine(rows, m))
  }

  ghost predicate KeyList(machines: seq<string>, byMachine: map<string, seq<Record>>) {
    && (forall m :: m in byMachine <==> m in machines)
    && (forall i, j :: 0 <= i < j < |machines| ==> machines[i] != machines[j])
  }

  lemma {:induction false} OfMachineNonEmpty(rows: seq<Record>, i: nat)
    requires i < |rows|
    ensures OfMachine(rows, rows[i].machineId) != []
  {
    if i < |rows| - 1 { OfMachineNonEmpty(rows[..|rows| - 1], i); }
  }

  // by_machine: a dictionary filled in a loop, with its keys in first-seen order.
  method GroupByMachine(rows: seq<Record>) returns (byMachine: map<string, seq<Record>>, machines: seq<string>)
    ensures |machines| <= |rows|
    ensures Grouped(rows, byMachine) && KeyList(machines, byMachine)
  {
    byMachine, machines := map[], [];
    for k := 0 to |rows|
      invariant |machines| <= k
      invariant Grouped(rows[..k], byMachine) && KeyList(machines, byMachine)
    {
      var r := rows[k];
      assert rows[..k + 1] == rows[..k] + [r];
      GroupedSnoc(rows[..k], byMachine, r);
      if r.machineId !in byMachine {
        machines := machines + [r.machineId];
        byMachine := byMachine[r.machineId := [r]];
      } else {
        byMachine := byMachine[r.machineId := byMachine[r.machineId] + [r]];
      }
    }
    assert rows[..|rows|] == rows;
  }

  lemma GroupedSnoc(rows: seq<Record>, byMachine: map<string, seq<Record>>, r: Record)
    requires Grouped(rows, byMachine)
    ensures var group := if r.machineId in byMachine then byMachine[r.machineId] else [];
            Grouped(rows + [r], byMachine[r.machineId := group + [r]])
  {
    assert (rows + [r])[..|rows|] == rows;
    assert forall m :: OfMachine(rows + [r], m) == OfMachine(rows, m) + if r.machineId == m then [r] else [];
    if r.machineId !in byMachine { assert OfMachine(rows, r.machineId) == [] && [] + [r] == [r]; }
  }

  method MarkGaps(dropped: seq<Record>, byMachine: map<string, seq<Record>>, machines: seq<string>,
                  newIds: seq<string>, last: int)
    returns (gaps: seq<Gap>, markers: seq<Record>)
    requires Grouped(dropped, byMachine) && KeyList(machines, byMachine) && |machines| <= |newIds|
    ensures GapsAreExact(dropped, gaps) && AreGapRecords(markers, gaps, last) && UsesIds(markers, newIds)
  {
    gaps, markers := [], [];
    for k := 0 to |machines|
      invariant |gaps| == k && Marked(dropped, machines, newIds, last, gaps, markers)
    {
      gaps, markers := MarkNext(dropped, byMachine, machines, newIds, last, gaps, markers);
    }
    EveryDropHasGap(dropped, byMachine, machines, gaps);
  }

  // The first gaps and their markers.
  ghost predicate Marked(dropped: seq<Record>, machines: seq<string>, newIds: seq<string>, last: int,
                         gaps: seq<Gap>, markers: seq<Record>) {
    GapsOf(dropped, machines, gaps) && AreGapRecords(markers, gaps, last) && UsesIds(markers, newIds)
  }

  method MarkNext(dropped: seq<Record>, byMachine: map<string, seq<Record>>, machines: seq<string>, newIds: seq<string>,
                  last: int, gaps: seq<Gap>, markers: seq<Record>) returns (gaps': seq<Gap>, markers': seq<Record>)
    requires Grouped(dropped, byMachine) && KeyList(machines, byMachine) && |machines| <= |newIds|
    requires |gaps| < |machines| && Marked(dropped, machines, newIds, last, gaps, markers)
    ensures |gaps'| == |gaps| + 1 && Marked(dropped, machines, newIds, last, gaps', markers')
  {
    var gap := NextGap(dropped, byMachine, machines, |gaps|);
    GapsGrow(dropped, machines, gaps, gap);
    MarkersGrow(gaps, markers, newIds, last, gap);
    gaps' := gaps + [gap];
    markers' := markers + [Record(last + 1 + |gaps|, newIds[|gaps|], GapMarker, gap.machineId, gap.toTs, GapData(gap))];
  }

  // One exact gap for each of the first machines.
  ghost predicate GapsOf(dropped: seq<Record>, machines: seq<string>, gaps: seq<Gap>) {
    && |gaps| <= |machines|
    && forall j :: 0 <= j < |gaps| ==> gaps[j].machineId == machines[j] && GapIsExact(dropped, gaps[j])
  }

  lemma GapsGrow(dropped: seq<Record>, machines: seq<string>, gaps: seq<Gap>, gap: Gap)
    requires GapsOf(dropped, machines, gaps) && |gaps| < |machines|
    requires gap.machineId == machines[|gaps|] && GapIsExact(dropped, gap)
    ensures GapsOf(dropped, machines, gaps + [gap])
  {
    var more := gaps + [gap];
    forall j | 0 <= j < |more| ensures more[j].machineId == machines[j] && GapIsExact(dropped, more[j]) {
      if j < |gaps| { assert more[j] == gaps[j]; }
    }
  }

  // The marker of one more gap.
  lemma MarkersGrow(gaps: seq<Gap>, markers: seq<Record>, newIds: seq<string>, last: int, gap: Gap)
    requires AreGapRecords(markers, gaps, last) && UsesIds(markers, newIds) && |markers| < |newIds|
    ensures var r := Record(last + 1 + |gaps|, newIds[|gaps|], GapMarker, gap.machineId, gap.toTs, GapData(gap));
            AreGapRecords(markers + [r], gaps + [gap], last) && UsesIds(markers + [r], newIds)
  {
  }

  method NextGap(dropped: seq<Record>, byMachine: map<string, seq<Record>>, machines: seq<string>, k: nat)
    returns (gap: Gap)
    requires Grouped(dropped, byMachine) && KeyList(machines, byMachine) && k < |machines|
    ensures gap.machineId == machines[k] && GapIsExact(dropped, gap)
  {
    assert machines[k] in byMachine;
    gap := GapOf(machines[k], byMachine[machines[k]]);
  }

  lemma EveryDropHasGap(dropped: seq<Record>, byMachine: map<string, seq<Record>>, machines: seq<string>,
                        gaps: seq<Gap>)
    requires Grouped(dropped, byMachine) && KeyList(machines, byMachine) && |gaps| == |machines|
    requires GapsOf(dropped, machines, gaps)
    ensures GapsAreExact(dropped, gaps)
  {
    forall i | 0 <= i < |dropped| ensures HasGap(gaps, dropped[i].machineId) {
      OfMachineNonEmpty(dropped, i);
      assert dropped[i].machineId in byMachine;
      var k :| 0 <= k < |machines| && machines[k] == dropped[i].machineId;
      assert gaps[k].machineId == machines[k];
    }
  }

  method GapOf(machineId: string, own: seq<Record>) returns (gap: Gap)
    requires own != []
    ensures gap.machineId == machineId && gap.droppedCount == |own|
    ensures forall i :: 0 <= i < |own| ==> gap.fromTs <= own[i].eventTime <= gap.toTs
    ensures exists i :: 0 <= i < |own| && own[i].eventTime == gap.fromTs
    ensures exists i :: 0 <= i < |own| && own[i].eventTime == gap.toTs
  {
    var lo, hi := own[0].eventTime, own[0].eventTime;
    for k := 1 to |own|
      invariant forall i :: 0 <= i < k ==> lo <= own[i].eventTime <= hi
      invariant exists i :: 0 <= i < k && own[i].eventTime == lo
      invariant exists i :: 0 <= i < k && own[i].eventTime == hi
    {
      if own[k].eventTime < lo { lo := own[k].eventTime; }
      if own[k].eventTime > hi { hi := own[k].eventTime; }
    }
    gap := Gap(machineId, lo, hi, |own|);
  }

  // --- Facts about the limit --------------------------------------------------------

  lemma {:induction false} TicksAreRows(rows: seq<Record>)
    ensures |Ticks(rows)| <= |rows|
    ensures forall i :: 0 <= i < |Ticks(rows)| ==> Ticks(rows)[i] in rows && Ticks(rows)[i].kind == Telemetry
    ensures forall r :: r in rows && r.kind == Telemetry ==> r in Ticks(rows)
  {
    if rows != [] { TicksAreRows(rows[1..]); }
  }

  lemma {:induction false} WithoutMembers(rows: seq<Record>, numbers: set<int>)
    ensures forall r :: r in Without(rows, numbers) <==> r in rows && r.number !in numbers
  {
    if rows != [] { WithoutMembers(rows[1..], numbers); }
  }

  lemma {:induction false} WithoutIsOrdered(rows: seq<Record>, numbers: set<int>, last: int)
    requires Ordered(rows, last)
    ensures Ordered(Without(rows, numbers), last)
  {
    if rows != [] {
      TailIsOrdered(rows, last);
      WithoutIsOrdered(rows[1..], numbers, last);
      WithoutAreRows(rows[1..], numbers);
      FirstIsLeast(rows[0], rows[1..], Without(rows[1..], numbers), last);
    }
  }

  lemma WithoutAreRows(rows: seq<Record>, numbers: set<int>)
    ensures forall i :: 0 <= i < |Without(rows, numbers)| ==> Without(rows, numbers)[i] in rows
  {
    WithoutMembers(rows, numbers);
    forall i | 0 <= i < |Without(rows, numbers)| ensures Without(rows, numbers)[i] in Without(rows, numbers) {}
  }

  lemma {:induction false} TicksAreOrdered(rows: seq<Record>, last: int)
    requires Ordered(rows, last)
    ensures Ordered(Ticks(rows), last)
  {
    if rows != [] {
      TailIsOrdered(rows, last);
      TicksAreOrdered(rows[1..], last);
      TicksAreRows(rows[1..]);
      FirstIsLeast(rows[0], rows[1..], Ticks(rows[1..]), last);
    }
  }

  // A row below every row of the tail goes in front of any selection from the tail.
  lemma FirstIsLeast(first: Record, tail: seq<Record>, selected: seq<Record>, last: int)
    requires Ordered(selected, last) && first.number <= last
    requires forall r :: r in tail ==> first.number < r.number
    requires forall i :: 0 <= i < |selected| ==> selected[i] in tail
    ensures Ordered([first] + selected, last)
  {
    var all := [first] + selected;
    forall i, j | 0 <= i < j < |all| ensures all[i].number < all[j].number {
      assert all[j] == selected[j - 1];
      if i > 0 { assert all[i] == selected[i - 1]; }
    }
  }

  function Others(rows: seq<Record>): seq<Record> {
    if rows == [] then []
    else (if rows[0].kind != Telemetry then [rows[0]] else []) + Others(rows[1..])
  }

  lemma {:induction false} TicksAppend(a: seq<Record>, b: seq<Record>)
    ensures Ticks(a + b) == Ticks(a) + Ticks(b)
  {
    if a == [] {
      assert a + b == b;
    } else {
      assert (a + b)[1..] == a[1..] + b;
      TicksAppend(a[1..], b);
    }
  }

  lemma {:induction false} OthersAppend(a: seq<Record>, b: seq<Record>)
    ensures Others(a + b) == Others(a) + Others(b)
  {
    if a == [] {
      assert a + b == b;
    } else {
      assert (a + b)[1..] == a[1..] + b;
      OthersAppend(a[1..], b);
    }
  }

  lemma {:induction false} WithoutNone(rows: seq<Record>, numbers: set<int>)
    requires forall i :: 0 <= i < |rows| ==> rows[i].number !in numbers
    ensures Without(rows, numbers) == rows
  {
    if rows != [] {
      assert forall i :: 0 <= i < |rows[1..]| ==> rows[1..][i] == rows[i + 1];
      WithoutNone(rows[1..], numbers);
    }
  }

  lemma {:induction false} WithoutSame(rows: seq<Record>, a: set<int>, b: set<int>)
    requires forall i :: 0 <= i < |rows| ==> (rows[i].number in a <==> rows[i].number in b)
    ensures Without(rows, a) == Without(rows, b)
  {
    if rows != [] {
      assert forall i :: 0 <= i < |rows[1..]| ==> rows[1..][i] == rows[i + 1];
      WithoutSame(rows[1..], a, b);
    }
  }

  lemma TailIsOrdered(rows: seq<Record>, last: int)
    requires Ordered(rows, last) && rows != []
    ensures Ordered(rows[1..], last)
    ensures forall r :: r in rows[1..] ==> rows[0].number < r.number
  {
    assert forall i :: 0 <= i < |rows[1..]| ==> rows[1..][i] == rows[i + 1];
  }

  // Dropping the numbers of the first n ticks removes these rows and no other.
  lemma {:induction false} KeptAfterDrop(rows: seq<Record>, last: int, n: nat)
    requires Ordered(rows, last) && n <= |Ticks(rows)|
    ensures Ticks(Without(rows, Numbers(Ticks(rows)[..n]))) == Ticks(rows)[n..]
    ensures Others(Without(rows, Numbers(Ticks(rows)[..n]))) == Others(rows)
  {
    if n == 0 {
      WithoutNone(rows, Numbers([]));
      assert Ticks(rows)[..0] == [];
    } else {
      TailIsOrdered(rows, last);
      if rows[0].kind == Telemetry {
        KeptAfterDrop(rows[1..], last, n - 1);
        DropAtTick(rows, last, n);
      } else {
        KeptAfterDrop(rows[1..], last, n);
        DropAtOther(rows, last, n);
      }
    }
  }

  lemma ConsSlices(r: Record, rest: seq<Record>, n: nat)
    requires 0 < n <= |rest| + 1
    ensures ([r] + rest)[n..] == rest[n - 1..] && ([r] + rest)[..n] == [r] + rest[..n - 1]
  {
  }

  lemma WithoutFirst(rows: seq<Record>, last: int, more: set<int>)
    requires Ordered(rows, last) && rows != []
    ensures Without(rows, {rows[0].number} + more) == Without(rows[1..], more)
  {
    var rest := rows[1..];
    TailIsOrdered(rows, last);
    forall i | 0 <= i < |rest| ensures rest[i].number in {rows[0].number} + more <==> rest[i].number in more {
      assert rest[i] in rest;
    }
    WithoutSame(rest, {rows[0].number} + more, more);
  }

  lemma DropAtTick(rows: seq<Record>, last: int, n: nat)
    requires Ordered(rows, last) && rows != [] && rows[0].kind == Telemetry && 0 < n <= |Ticks(rows)|
    ensures Ticks(rows)[n..] == Ticks(rows[1..])[n - 1..]
    ensures Without(rows, Numbers(Ticks(rows)[..n])) == Without(rows[1..], Numbers(Ticks(rows[1..])[..n - 1]))
  {
    var rest := Ticks(rows[1..]);
    assert Ticks(rows) == [rows[0]] + rest;
    ConsSlices(rows[0], rest, n);
    NumbersOfCons(rows[0], rest[..n - 1]);
    WithoutFirst(rows, last, Numbers(rest[..n - 1]));
  }

  lemma DropAtOther(rows: seq<Record>, last: int, n: nat)
    requires Ordered(rows, last) && rows != [] && rows[0].kind != Telemetry && n <= |Ticks(rows)|
    ensures Ticks(rows) == Ticks(rows[1..])
    ensures Without(rows, Numbers(Ticks(rows)[..n])) == [rows[0]] + Without(rows[1..], Numbers(Ticks(rows)[..n]))
  {
    TailIsOrdered(rows, last);
    TicksAreRows(rows[1..]);
    forall i | 0 <= i < n ensures Ticks(rows)[i].number != rows[0].number {
      assert Ticks(rows)[i] in rows[1..];
    }
  }

  lemma NumbersOfCons(r: Record, rows: seq<Record>)
    ensures Numbers([r] + rows) == {r.number} + Numbers(rows)
  {
    var all := [r] + rows;
    assert all[0] == r && forall i :: 0 <= i < |rows| ==> all[i + 1] == rows[i];
    forall x | x in {r.number} + Numbers(rows) ensures x in Numbers(all) {
      if x != r.number {
        var i :| 0 <= i < |rows| && rows[i].number == x;
        assert all[i + 1].number == x;
      }
    }
  }

  function Total(gaps: seq<Gap>): nat {
    if gaps == [] then 0 else gaps[0].droppedCount + Total(gaps[1..])
  }

  function CountAll(rows: seq<Record>, gaps: seq<Gap>): nat {
    if gaps == [] then 0 else |OfMachine(rows, gaps[0].machineId)| + CountAll(rows, gaps[1..])
  }

  lemma {:induction false} CountOneMore(rows: seq<Record>, r: Record, gaps: seq<Gap>)
    requires forall i, j :: 0 <= i < j < |gaps| ==> gaps[i].machineId != gaps[j].machineId
    ensures CountAll(rows + [r], gaps) == CountAll(rows, gaps) + if HasGap(gaps, r.machineId) then 1 else 0
  {
    if gaps != [] {
      assert (rows + [r])[..|rows|] == rows;
      CountOneMore(rows, r, gaps[1..]);
      assert HasGap(gaps, r.machineId) <==> gaps[0].machineId == r.machineId || HasGap(gaps[1..], r.machineId) by {
        assert forall k :: 0 <= k < |gaps[1..]| ==> gaps[1..][k] == gaps[k + 1];
        if HasGap(gaps[1..], r.machineId) {
          var k :| 0 <= k < |gaps[1..]| && gaps[1..][k].machineId == r.machineId;
          assert gaps[k + 1].machineId == r.machineId;
        }
      }
    }
  }

  lemma {:induction false} CountAllRows(rows: seq<Record>, gaps: seq<Gap>)
    requires forall i, j :: 0 <= i < j < |gaps| ==> gaps[i].machineId != gaps[j].machineId
    requires forall i :: 0 <= i < |rows| ==> HasGap(gaps, rows[i].machineId)
    ensures CountAll(rows, gaps) == |rows|
  {
    if rows == [] {
      CountNone(gaps);
    } else {
      var before := rows[..|rows| - 1];
      assert rows == before + [rows[|rows| - 1]];
      CountAllRows(before, gaps);
      CountOneMore(before, rows[|rows| - 1], gaps);
    }
  }

  lemma {:induction false} CountNone(gaps: seq<Gap>)
    ensures CountAll([], gaps) == 0
  {
    if gaps != [] { CountNone(gaps[1..]); }
  }

  lemma {:induction false} TotalIsCount(rows: seq<Record>, gaps: seq<Gap>)
    requires forall k :: 0 <= k < |gaps| ==> GapIsExact(rows, gaps[k])
    ensures Total(gaps) == CountAll(rows, gaps)
  {
    if gaps != [] {
      assert GapIsExact(rows, gaps[0]);
      assert forall k :: 0 <= k < |gaps[1..]| ==> gaps[1..][k] == gaps[k + 1];
      TotalIsCount(rows, gaps[1..]);
    }
  }

  lemma {:induction false} MarkersAreOthers(markers: seq<Record>)
    requires forall i :: 0 <= i < |markers| ==> markers[i].kind != Telemetry
    ensures Ticks(markers) == [] && Others(markers) == markers
  {
    if markers != [] { MarkersAreOthers(markers[1..]); }
  }

  lemma NotNegative(n: nat, x: real)
    requires x >= 0.0
    ensures n as real * x >= 0.0 && n as real * -x <= 0.0
  {
  }

  // How far down a backlog goes, and when the subtraction comes out negative.
  lemma LowCountIsLowWater(backlog: nat, maxRecords: nat, lowWater: real)
    ensures var low := LowCount(maxRecords, lowWater);
            && (low > backlog <==> maxRecords as real * lowWater >= (backlog + 1) as real)
            && IsLowWater(if low < 0 then 0 else low, maxRecords, lowWater)
  {
    var x := maxRecords as real * lowWater;
    NotNegative(maxRecords, if lowWater >= 0.0 then lowWater else -lowWater);
    assert lowWater >= 0.0 ==> x >= 0.0;
    assert lowWater < 0.0 ==> x <= 0.0;
  }

  // Above the limit, the call is refused exactly when the low-water share exceeds what is there.
  // Otherwise exactly the oldest ticks go, down to that level; records of every other kind stay; and
  // the gaps count every dropped tick.
  lemma LimitDropsOldestTicks(rows: seq<Record>, last: int, maxRecords: nat, lowWater: real,
                              rows': seq<Record>, outcome: Result<seq<Gap>, LimitError>)
    requires Ordered(rows, last) && LimitEnforced(rows, last, maxRecords, lowWater, rows', outcome)
    requires |Ticks(rows)| > maxRecords
    ensures outcome.Err? <==> maxRecords as real * lowWater >= (|Ticks(rows)| + 1) as real
    ensures outcome.Err? ==> rows' == rows
    ensures outcome.Ok? ==>
              IsLowWater(|Ticks(rows')|, maxRecords, lowWater) && NewestTicksLeft(rows, rows', outcome.value)
  {
    LowCountIsLowWater(|Ticks(rows)|, maxRecords, lowWater);
    if outcome.Ok? {
      var low := LowCount(maxRecords, lowWater);
      DroppedDownTo(rows, last, |Ticks(rows)| - low, rows', outcome.value);
      LeftAre(rows, |Ticks(rows)| - if low < 0 then 0 else low, rows', outcome.value);
    }
  }

  // The first n ticks are gone, the other kinds stay, and the gaps count what is gone.
  ghost predicate FirstTicksGone(rows: seq<Record>, n: nat, rows': seq<Record>, gaps: seq<Gap>) {
    && n <= |Ticks(rows)| && Ticks(rows') == Ticks(rows)[n..] && GapsAreExact(Ticks(rows)[..n], gaps)
    && |Others(rows')| == |Others(rows)| + |gaps| && Others(rows')[..|Others(rows)|] == Others(rows)
    && n == Total(gaps)
  }

  // The same, counted from the ticks that are left.
  ghost predicate NewestTicksLeft(rows: seq<Record>, rows': seq<Record>, gaps: seq<Gap>) {
    var k := |Ticks(rows')|;
    && k <= |Ticks(rows)| && Ticks(rows') == Ticks(rows)[|Ticks(rows)| - k..]
    && GapsAreExact(Ticks(rows)[..|Ticks(rows)| - k], gaps)
    && |Others(rows')| == |Others(rows)| + |gaps| && Others(rows')[..|Others(rows)|] == Others(rows)
    && |Ticks(rows)| == k + Total(gaps)
  }

  lemma LeftAre(rows: seq<Record>, n: nat, rows': seq<Record>, gaps: seq<Gap>)
    requires FirstTicksGone(rows, n, rows', gaps)
    ensures |Ticks(rows')| == |Ticks(rows)| - n && NewestTicksLeft(rows, rows', gaps)
  {
    assert |Ticks(rows)| - |Ticks(rows')| == n;
  }

  lemma LimitOutcome(rows: seq<Record>, last: int, maxRecords: nat, lowWater: real,
                     rows': seq<Record>, outcome: Result<seq<Gap>, LimitError>)
    requires Ordered(rows, last) && LimitEnforced(rows, last, maxRecords, lowWater, rows', outcome)
    requires |Ticks(rows)| > maxRecords
    ensures EndsAt(|Ticks(rows)|, maxRecords, lowWater, |Ticks(rows')|, outcome)
  {
    LimitDropsOldestTicks(rows, last, maxRecords, lowWater, rows', outcome);
  }

  lemma DroppedDownTo(rows: seq<Record>, last: int, excess: nat, rows': seq<Record>, gaps: seq<Gap>)
    requires Ordered(rows, last) && OldestDropped(rows, last, excess, rows', gaps)
    ensures FirstTicksGone(rows, if excess <= |Ticks(rows)| then excess else |Ticks(rows)|, rows', gaps)
  {
    var dropped := Oldest(rows, excess);
    var n := |dropped|;
    assert dropped == Ticks(rows)[..n];
    var kept, markers := rows'[..|rows'| - |gaps|], rows'[|rows'| - |gaps|..];
    assert rows' == kept + markers;
    KeptAfterDrop(rows, last, n);
    TicksAppend(kept, markers);
    OthersAppend(kept, markers);
    MarkersAreOthers(markers);
    assert Ticks(kept) + [] == Ticks(kept);
    CountAllRows(dropped, gaps);
    TotalIsCount(dropped, gaps);
  }

  // --- What the forwarder may delete ------------------------------------------------

  // Row i and every earlier row of its machine were acknowledged.
  predicate Clear(rows: seq<Record>, acked: seq<bool>, i: nat)
    requires |rows| == |acked| && i < |rows|
  {
    forall j :: 0 <= j <= i && rows[j].machineId == rows[i].machineId ==> acked[j]
  }

  function ClearNumbers(rows: seq<Record>, acked: seq<bool>, n: nat): seq<int>
    requires |rows| == |acked| && n <= |rows|
  {
    if n == 0 then []
    else ClearNumbers(rows, acked, n - 1) + if Clear(rows, acked, n - 1) then [rows[n - 1].number] else []
  }

  // Per machine, every record before its first failure; acked[i] is false for an error.
  method AcknowledgedPrefix(rows: seq<Record>, acked: seq<bool>) returns (done: seq<int>)
    requires |rows| == |acked|
    ensures done == ClearNumbers(rows, acked, |rows|)
  {
    var blocked: set<string> := {};
    done := [];
    for k := 0 to |rows|
      invariant done == ClearNumbers(rows, acked, k)
      invariant forall m :: m in blocked <==> exists j :: 0 <= j < k && rows[j].machineId == m && !acked[j]
    {
      if rows[k].machineId in blocked {
        continue;
      }
      if !acked[k] {
        blocked := blocked + {rows[k].machineId};
        continue;
      }
      done := done + [rows[k].number];
    }
  }

  // Exactly the clear rows are deleted, and only acknowledged ones.
  lemma {:induction false} ClearNumbersExactly(rows: seq<Record>, acked: seq<bool>, n: nat, number: int)
    requires |rows| == |acked| && n <= |rows|
    ensures number in ClearNumbers(rows, acked, n) <==>
              exists i :: 0 <= i < n && rows[i].number == number && Clear(rows, acked, i)
    ensures number in ClearNumbers(rows, acked, n) ==> exists i :: 0 <= i < n && rows[i].number == number && acked[i]
  {
    if n > 0 { ClearNumbersExactly(rows, acked, n - 1, number); }
  }
}
