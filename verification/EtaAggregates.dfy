// Historical aggregates for the ETA model (backend/app/shared/eta_aggregates.py). Floats are reals.
module EtaAggregates {
  import opened Prelude

  datatype Scope = OPERATOR | MACHINE | SKILL | FLEET | DEFAULT

  const MIN_SAMPLES := 3
  const DEFAULT_IDLE_RATIO := 0.2
  const DEFAULT_CYCLE_RATE := 40.0

  // An unknown task type gets the largest default.
  function DefaultPace(taskType: string): real {
    if taskType == "excavation" then 0.6 else if taskType == "trenching" then 0.7 else 1.2
  }

  function SkillScopeId(machineType: string, skillLevel: string): string { machineType + ":" + skillLevel }

  datatype TaskHistory = TaskHistory(
    taskId: string, shiftId: string, operatorId: string, machineId: string, machineType: string, skillLevel: string,
    taskType: string, targetQuantity: real, actualMinutes: real)

  datatype ShiftHistory = ShiftHistory(
    shiftId: string, operatorId: string, machineId: string, machineType: string, skillLevel: string,
    idleRatio: real, cycleRate: real)

  datatype ShiftKey = ShiftKey(scope: Scope, scopeId: string)
  datatype TaskKey = TaskKey(scope: Scope, scopeId: string, taskType: string)

  datatype Row = Row(key: TaskKey, minutesPerUnit: real, idleRatio: real, cycleRate: real)

  datatype Features = Features(
    operatorPace: real, machinePace: real, idleRatio: real, cycleRate: real, operatorScope: Scope, machineScope: Scope)

  function TaskKeys(t: TaskHistory): seq<TaskKey> {
    [TaskKey(OPERATOR, t.operatorId, t.taskType), TaskKey(MACHINE, t.machineId, t.taskType),
     TaskKey(SKILL, SkillScopeId(t.machineType, t.skillLevel), t.taskType), TaskKey(FLEET, t.machineType, t.taskType)]
  }

  function ShiftKeys(s: ShiftHistory): seq<ShiftKey> {
    [ShiftKey(OPERATOR, s.operatorId), ShiftKey(MACHINE, s.machineId),
     ShiftKey(SKILL, SkillScopeId(s.machineType, s.skillLevel)), ShiftKey(FLEET, s.machineType)]
  }

  // --- Running sums -----------------------------------------------------------------

  datatype Acc = Acc(first: real, second: real, count: int)

  const ZERO := Acc(0.0, 0.0, 0)

  function Plus(a: Acc, first: real, second: real): Acc { Acc(a.first + first, a.second + second, a.count + 1) }

  function Minus(a: Acc, first: real, second: real): Acc { Acc(a.first - first, a.second - second, a.count - 1) }

  // What one history row adds to each of its keys.
  datatype Sample<K> = Sample(keys: seq<K>, first: real, second: real)

  function TaskSample(t: TaskHistory): Sample<TaskKey> { Sample(TaskKeys(t), t.actualMinutes, t.targetQuantity) }

  function ShiftSample(s: ShiftHistory): Sample<ShiftKey> { Sample(ShiftKeys(s), s.idleRatio, s.cycleRate) }

  function TaskSamples(tasks: seq<TaskHistory>): seq<Sample<TaskKey>> {
    seq(|tasks|, i requires 0 <= i < |tasks| => TaskSample(tasks[i]))
  }

  function ShiftSamples(shifts: seq<ShiftHistory>): seq<Sample<ShiftKey>> {
    seq(|shifts|, i requires 0 <= i < |shifts| => ShiftSample(shifts[i]))
  }

  // The sums of one key, over the rows that have it.
  function SumOf<K(==)>(samples: seq<Sample<K>>, key: K): Acc {
    if samples == [] then ZERO
    else
      var s := samples[|samples| - 1];
      var before := SumOf(samples[..|samples| - 1], key);
      if key in s.keys then Plus(before, s.first, s.second) else before
  }

  function At<K(==)>(sums: map<K, Acc>, key: K): Acc { if key in sums then sums[key] else ZERO }

  ghost predicate DistinctKeys<K>(samples: seq<Sample<K>>) {
    forall i :: 0 <= i < |samples| ==> AllDistinct(samples[i].keys)
  }

  ghost predicate AllDistinct<K>(keys: seq<K>) {
    forall i, j :: 0 <= i < j < |keys| ==> keys[i] != keys[j]
  }

  ghost predicate IsSums<K(!new)>(sums: map<K, Acc>, samples: seq<Sample<K>>) {
    forall key :: At(sums, key) == SumOf(samples, key) && (key in sums <==> SumOf(samples, key).count > 0)
  }

  lemma {:induction false} CountIsPositive<K>(samples: seq<Sample<K>>, key: K)
    ensures SumOf(samples, key).count >= 0
    ensures SumOf(samples, key).count == 0 ==> SumOf(samples, key) == ZERO
  {
    if samples != [] { CountIsPositive(samples[..|samples| - 1], key); }
  }

  // The nested loop of AggregateStats: every row into every one of its keys.
  method Accumulate<K(==, !new)>(samples: seq<Sample<K>>) returns (sums: map<K, Acc>)
    requires DistinctKeys(samples)
    ensures IsSums(sums, samples)
  {
    sums := map[];
    for i := 0 to |samples|
      invariant IsSums(sums, samples[..i])
    {
      var s := samples[i];
      sums := AddSample(sums, samples[..i], s);
      assert samples[..i + 1] == samples[..i] + [s];
    }
    assert samples[..|samples|] == samples;
  }

  method AddSample<K(==, !new)>(start: map<K, Acc>, ghost before: seq<Sample<K>>, s: Sample<K>)
    returns (sums: map<K, Acc>)
    requires IsSums(start, before) && AllDistinct(s.keys)
    ensures IsSums(sums, before + [s])
  {
    sums := start;
    for j := 0 to |s.keys|
      invariant forall key :: key in s.keys[..j] ==> key in sums && sums[key] == Plus(At(start, key), s.first, s.second)
      invariant forall key :: key !in s.keys[..j] ==> (key in sums <==> key in start) && At(sums, key) == At(start, key)
    {
      assert s.keys[j] !in s.keys[..j];
      sums := sums[s.keys[j] := Plus(At(sums, s.keys[j]), s.first, s.second)];
    }
    assert s.keys[..|s.keys|] == s.keys;
    forall key
      ensures At(sums, key) == SumOf(before + [s], key) && (key in sums <==> SumOf(before + [s], key).count > 0)
    {
      assert (before + [s])[..|before|] == before;
      CountIsPositive(before, key);
    }
  }

  // --- Resolving --------------------------------------------------------------------

  // The mean idle ratio and cycle rate of a scope, with one shift left out.
  function ShiftMeans(sums: map<ShiftKey, Acc>, key: ShiftKey, exclude: Option<ShiftHistory>): (real, real) {
    var a := At(sums, key);
    var acc := if exclude.Some? && key in ShiftKeys(exclude.value)
               then Minus(a, exclude.value.idleRatio, exclude.value.cycleRate) else a;
    if acc.count <= 0 then (DEFAULT_IDLE_RATIO, DEFAULT_CYCLE_RATE)
    else (acc.first / acc.count as real, acc.second / acc.count as real)
  }

  function Resolve(pace: map<TaskKey, Acc>, shift: map<ShiftKey, Acc>, excludeTask: Option<TaskHistory>,
                   excludeShift: Option<ShiftHistory>, key: TaskKey): Option<Row> {
    if key !in pace then None
    else
      var a := if excludeTask.Some? && key in TaskKeys(excludeTask.value)
               then Minus(pace[key], excludeTask.value.actualMinutes, excludeTask.value.targetQuantity) else pace[key];
      if a.count < MIN_SAMPLES || a.second <= 0.0 then None
      else
        var (idle, cycle) := ShiftMeans(shift, ShiftKey(key.scope, key.scopeId), excludeShift);
        Some(Row(key, a.first / a.second, idle, cycle))
  }

  function Without<T>(s: seq<T>, i: nat): seq<T>
    requires i < |s|
  {
    s[..i] + s[i + 1..]
  }

  // Leave one row out, or none.
  function LeftOut<T>(s: seq<T>, i: Option<nat>): seq<T>
    requires i.Some? ==> i.value < |s|
  {
    if i.Some? then Without(s, i.value) else s
  }

  function Pick<T>(s: seq<T>, i: Option<nat>): Option<T>
    requires i.Some? ==> i.value < |s|
  {
    if i.Some? then Some(s[i.value]) else None
  }

  lemma {:induction false} SumWithout<K>(samples: seq<Sample<K>>, i: nat, key: K)
    requires i < |samples|
    ensures SumOf(Without(samples, i), key)
         == if key in samples[i].keys then Minus(SumOf(samples, key), samples[i].first, samples[i].second)
            else SumOf(samples, key)
  {
    var n := |samples| - 1;
    if i == n {
      assert Without(samples, i) == samples[..n];
    } else {
      SumWithout(samples[..n], i, key);
      var rest := Without(samples, i);
      assert rest[..|rest| - 1] == Without(samples[..n], i);
    }
  }

  lemma SamplesWithout(tasks: seq<TaskHistory>, shifts: seq<ShiftHistory>, i: nat, j: nat)
    ensures i < |tasks| ==> TaskSamples(Without(tasks, i)) == Without(TaskSamples(tasks), i)
    ensures j < |shifts| ==> ShiftSamples(Without(shifts, j)) == Without(ShiftSamples(shifts), j)
  {
  }

  // The sums of rebuilt statistics are the old ones less the left-out row.
  lemma PaceLeftOut(tasks: seq<TaskHistory>, i: Option<nat>, pace: map<TaskKey, Acc>, pace': map<TaskKey, Acc>,
                    key: TaskKey)
    requires (i.Some? ==> i.value < |tasks|) && IsSums(pace, TaskSamples(tasks))
             && IsSums(pace', TaskSamples(LeftOut(tasks, i)))
    ensures At(pace', key) == if i.Some? && key in TaskKeys(tasks[i.value])
                              then Minus(At(pace, key), tasks[i.value].actualMinutes, tasks[i.value].targetQuantity)
                              else At(pace, key)
    ensures key in pace' <==> At(pace', key).count > 0
    ensures key in pace <==> At(pace, key).count > 0
  {
    assert At(pace, key) == SumOf(TaskSamples(tasks), key);
    assert At(pace', key) == SumOf(TaskSamples(LeftOut(tasks, i)), key);
    if i.Some? {
      SamplesWithout(tasks, [], i.value, 0);
      SumWithout(TaskSamples(tasks), i.value, key);
    }
  }

  lemma ShiftLeftOut(shifts: seq<ShiftHistory>, j: Option<nat>, shift: map<ShiftKey, Acc>, shift': map<ShiftKey, Acc>,
                     key: ShiftKey)
    requires (j.Some? ==> j.value < |shifts|) && IsSums(shift, ShiftSamples(shifts))
             && IsSums(shift', ShiftSamples(LeftOut(shifts, j)))
    ensures ShiftMeans(shift, key, Pick(shifts, j)) == ShiftMeans(shift', key, None)
  {
    assert At(shift, key) == SumOf(ShiftSamples(shifts), key);
    assert At(shift', key) == SumOf(ShiftSamples(LeftOut(shifts, j)), key);
    if j.Some? {
      SamplesWithout([], shifts, 0, j.value);
      SumWithout(ShiftSamples(shifts), j.value, key);
    }
  }

  // Subtracting one task and one shift from the running sums resolves every key as statistics
  // rebuilt without these two rows do.
  lemma LeaveOneOut(tasks: seq<TaskHistory>, shifts: seq<ShiftHistory>, i: Option<nat>, j: Option<nat>,
                    pace: map<TaskKey, Acc>, shift: map<ShiftKey, Acc>,
                    pace': map<TaskKey, Acc>, shift': map<ShiftKey, Acc>, key: TaskKey)
    requires (i.Some? ==> i.value < |tasks|) && (j.Some? ==> j.value < |shifts|)
    requires IsSums(pace, TaskSamples(tasks)) && IsSums(shift, ShiftSamples(shifts))
    requires IsSums(pace', TaskSamples(LeftOut(tasks, i))) && IsSums(shift', ShiftSamples(LeftOut(shifts, j)))
    ensures Resolve(pace, shift, Pick(tasks, i), Pick(shifts, j), key) == Resolve(pace', shift', None, None, key)
  {
    PaceLeftOut(tasks, i, pace, pace', key);
    ShiftLeftOut(shifts, j, shift, shift', ShiftKey(key.scope, key.scopeId));
  }

  // --- Read off the history ---------------------------------------------------------

  // The finished tasks an aggregate speaks for.
  predicate Covers(key: TaskKey, t: TaskHistory) {
    && t.taskType == key.taskType
    && match key.scope
       case OPERATOR => t.operatorId == key.scopeId
       case MACHINE => t.machineId == key.scopeId
       case SKILL => t.machineType + ":" + t.skillLevel == key.scopeId
       case FLEET => t.machineType == key.scopeId
       case DEFAULT => false
  }

  predicate CoversShift(key: TaskKey, s: ShiftHistory) {
    match key.scope
    case OPERATOR => s.operatorId == key.scopeId
    case MACHINE => s.machineId == key.scopeId
    case SKILL => s.machineType + ":" + s.skillLevel == key.scopeId
    case FLEET => s.machineType == key.scopeId
    case DEFAULT => false
  }

  function Covered(tasks: seq<TaskHistory>, key: TaskKey): seq<TaskHistory> {
    if tasks == [] then []
    else
      var t := tasks[|tasks| - 1];
      Covered(tasks[..|tasks| - 1], key) + if Covers(key, t) then [t] else []
  }

  function CoveredShifts(shifts: seq<ShiftHistory>, key: TaskKey): seq<ShiftHistory> {
    if shifts == [] then []
    else
      var s := shifts[|shifts| - 1];
      CoveredShifts(shifts[..|shifts| - 1], key) + if CoversShift(key, s) then [s] else []
  }

  function Minutes(tasks: seq<TaskHistory>): real {
    if tasks == [] then 0.0 else Minutes(tasks[..|tasks| - 1]) + tasks[|tasks| - 1].actualMinutes
  }

  function Quantity(tasks: seq<TaskHistory>): real {
    if tasks == [] then 0.0 else Quantity(tasks[..|tasks| - 1]) + tasks[|tasks| - 1].targetQuantity
  }

  function IdleRatios(shifts: seq<ShiftHistory>): real {
    if shifts == [] then 0.0 else IdleRatios(shifts[..|shifts| - 1]) + shifts[|shifts| - 1].idleRatio
  }

  function CycleRates(shifts: seq<ShiftHistory>): real {
    if shifts == [] then 0.0 else CycleRates(shifts[..|shifts| - 1]) + shifts[|shifts| - 1].cycleRate
  }

  function TaskTotals(tasks: seq<TaskHistory>): Acc { Acc(Minutes(tasks), Quantity(tasks), |tasks|) }

  function ShiftTotals(shifts: seq<ShiftHistory>): Acc { Acc(IdleRatios(shifts), CycleRates(shifts), |shifts|) }

  lemma TotalsSnoc(tasks: seq<TaskHistory>, t: TaskHistory, shifts: seq<ShiftHistory>, s: ShiftHistory)
    ensures TaskTotals(tasks + [t]) == Plus(TaskTotals(tasks), t.actualMinutes, t.targetQuantity)
    ensures ShiftTotals(shifts + [s]) == Plus(ShiftTotals(shifts), s.idleRatio, s.cycleRate)
  {
    assert (tasks + [t])[..|tasks|] == tasks && (shifts + [s])[..|shifts|] == shifts;
  }

  lemma CoveredKeys(key: TaskKey, t: TaskHistory, s: ShiftHistory)
    ensures Covers(key, t) <==> key in TaskKeys(t)
    ensures CoversShift(key, s) <==> ShiftKey(key.scope, key.scopeId) in ShiftKeys(s)
  {
    var ks, ss := TaskKeys(t), ShiftKeys(s);
    assert ks[0] in ks && ks[1] in ks && ks[2] in ks && ks[3] in ks;
    assert ss[0] in ss && ss[1] in ss && ss[2] in ss && ss[3] in ss;
  }

  lemma {:induction false} SumIsCovered(tasks: seq<TaskHistory>, key: TaskKey)
    ensures SumOf(TaskSamples(tasks), key) == TaskTotals(Covered(tasks, key))
  {
    if tasks != [] {
      var before, t := tasks[..|tasks| - 1], tasks[|tasks| - 1];
      SumIsCovered(before, key);
      assert TaskSamples(tasks)[..|tasks| - 1] == TaskSamples(before);
      assert TaskSamples(tasks)[|tasks| - 1] == TaskSample(t);
      var s: ShiftHistory :| true;
      CoveredKeys(key, t, s);
      TotalsSnoc(Covered(before, key), t, [], s);
      assert Covered(before, key) + [] == Covered(before, key);
    }
  }

  lemma {:induction false} ShiftSumIsCovered(shifts: seq<ShiftHistory>, key: TaskKey)
    ensures SumOf(ShiftSamples(shifts), ShiftKey(key.scope, key.scopeId)) == ShiftTotals(CoveredShifts(shifts, key))
  {
    if shifts != [] {
      var before, s := shifts[..|shifts| - 1], shifts[|shifts| - 1];
      ShiftSumIsCovered(before, key);
      assert ShiftSamples(shifts)[..|shifts| - 1] == ShiftSamples(before);
      assert ShiftSamples(shifts)[|shifts| - 1] == ShiftSample(s);
      var t: TaskHistory :| true;
      CoveredKeys(key, t, s);
      TotalsSnoc([], t, CoveredShifts(before, key), s);
      assert CoveredShifts(before, key) + [] == CoveredShifts(before, key);
    }
  }

  // The running sums, less the left-out row, are the totals of the remaining history.
  lemma PaceOfRest(tasks: seq<TaskHistory>, i: Option<nat>, pace: map<TaskKey, Acc>, key: TaskKey)
    requires (i.Some? ==> i.value < |tasks|) && IsSums(pace, TaskSamples(tasks))
    ensures TaskTotals(Covered(LeftOut(tasks, i), key))
         == if i.Some? && key in TaskKeys(tasks[i.value])
            then Minus(At(pace, key), tasks[i.value].actualMinutes, tasks[i.value].targetQuantity) else At(pace, key)
    ensures key !in pace ==> Covered(LeftOut(tasks, i), key) == []
  {
    SumIsCovered(LeftOut(tasks, i), key);
    CountIsPositive(TaskSamples(tasks), key);
    assert At(pace, key) == SumOf(TaskSamples(tasks), key);
    if i.Some? {
      SamplesWithout(tasks, [], i.value, 0);
      SumWithout(TaskSamples(tasks), i.value, key);
    }
  }

  lemma ShiftsOfRest(shifts: seq<ShiftHistory>, j: Option<nat>, shift: map<ShiftKey, Acc>, key: TaskKey)
    requires (j.Some? ==> j.value < |shifts|) && IsSums(shift, ShiftSamples(shifts))
    ensures var k := ShiftKey(key.scope, key.scopeId);
            ShiftTotals(CoveredShifts(LeftOut(shifts, j), key))
            == if j.Some? && k in ShiftKeys(shifts[j.value])
               then Minus(At(shift, k), shifts[j.value].idleRatio, shifts[j.value].cycleRate) else At(shift, k)
  {
    var k := ShiftKey(key.scope, key.scopeId);
    ShiftSumIsCovered(LeftOut(shifts, j), key);
    assert At(shift, k) == SumOf(ShiftSamples(shifts), k);
    if j.Some? {
      SamplesWithout([], shifts, 0, j.value);
      SumWithout(ShiftSamples(shifts), j.value, k);
    }
  }

  // The means over the remaining shifts, or the defaults when there is none.
  ghost predicate AreMeans(shifts: seq<ShiftHistory>, idle: real, cycle: real) {
    if shifts == [] then idle == 0.2 && cycle == 40.0
    else idle == IdleRatios(shifts) / |shifts| as real && cycle == CycleRates(shifts) / |shifts| as real
  }

  lemma MeansOfTotals(sums: map<ShiftKey, Acc>, k: ShiftKey, exclude: Option<ShiftHistory>, acc: Acc)
    requires acc == if exclude.Some? && k in ShiftKeys(exclude.value)
                    then Minus(At(sums, k), exclude.value.idleRatio, exclude.value.cycleRate) else At(sums, k)
    ensures ShiftMeans(sums, k, exclude)
         == if acc.count <= 0 then (0.2, 40.0) else (acc.first / acc.count as real, acc.second / acc.count as real)
  {
  }

  lemma MeansOfRest(shifts: seq<ShiftHistory>, j: Option<nat>, shift: map<ShiftKey, Acc>, key: TaskKey)
    requires (j.Some? ==> j.value < |shifts|) && IsSums(shift, ShiftSamples(shifts))
    ensures var means := ShiftMeans(shift, ShiftKey(key.scope, key.scopeId), Pick(shifts, j));
            AreMeans(CoveredShifts(LeftOut(shifts, j), key), means.0, means.1)
  {
    var rest, k := CoveredShifts(LeftOut(shifts, j), key), ShiftKey(key.scope, key.scopeId);
    ShiftsOfRest(shifts, j, shift, key);
    MeansOfTotals(shift, k, Pick(shifts, j), ShiftTotals(rest));
  }

  lemma RowOfTotals(pace: map<TaskKey, Acc>, shift: map<ShiftKey, Acc>, excludeTask: Option<TaskHistory>,
                    excludeShift: Option<ShiftHistory>, key: TaskKey, a: Acc)
    requires a == if excludeTask.Some? && key in TaskKeys(excludeTask.value)
                  then Minus(At(pace, key), excludeTask.value.actualMinutes, excludeTask.value.targetQuantity)
                  else At(pace, key)
    requires key !in pace ==> a.count <= 0
    ensures var r, means := Resolve(pace, shift, excludeTask, excludeShift, key),
                            ShiftMeans(shift, ShiftKey(key.scope, key.scopeId), excludeShift);
            if a.count < 3 || a.second <= 0.0 then r.None?
            else r == Some(Row(key, a.first / a.second, means.0, means.1))
  {
  }

  // What the resolver answers for a key, with one task and one shift left out or none: a row exactly
  // when three of the remaining tasks it covers and a positive quantity stand behind it; its pace is
  // their minutes per unit, and its rates are the means over the remaining shifts, or the defaults.
  lemma ResolvedFromHistory(tasks: seq<TaskHistory>, shifts: seq<ShiftHistory>, i: Option<nat>, j: Option<nat>,
                            pace: map<TaskKey, Acc>, shift: map<ShiftKey, Acc>, key: TaskKey)
    requires (i.Some? ==> i.value < |tasks|) && (j.Some? ==> j.value < |shifts|)
    requires IsSums(pace, TaskSamples(tasks)) && IsSums(shift, ShiftSamples(shifts))
    ensures var own := Covered(LeftOut(tasks, i), key);
            var r := Resolve(pace, shift, Pick(tasks, i), Pick(shifts, j), key);
            && (r.Some? <==> |own| >= 3 && Quantity(own) > 0.0)
            && (r.Some? ==>
                  && r.value.key == key && r.value.minutesPerUnit == Minutes(own) / Quantity(own)
                  && AreMeans(CoveredShifts(LeftOut(shifts, j), key), r.value.idleRatio, r.value.cycleRate))
  {
    var own := Covered(LeftOut(tasks, i), key);
    PaceOfRest(tasks, i, pace, key);
    MeansOfRest(shifts, j, shift, key);
    RowOfTotals(pace, shift, Pick(tasks, i), Pick(shifts, j), key, TaskTotals(own));
  }

  // --- The cold-start chain ---------------------------------------------------------

  // The first scope of the chain that has a trusted row.
  function FirstRow(resolve: TaskKey -> Option<Row>, chain: seq<ShiftKey>, taskType: string): (Scope, Option<Row>) {
    if chain == [] then (DEFAULT, None)
    else
      var row := resolve(TaskKey(chain[0].scope, chain[0].scopeId, taskType));
      if row.Some? then (chain[0].scope, row) else FirstRow(resolve, chain[1..], taskType)
  }

  method FindFirstRow(resolve: TaskKey -> Option<Row>, chain: seq<ShiftKey>, taskType: string)
    returns (scope: Scope, row: Option<Row>)
    ensures (scope, row) == FirstRow(resolve, chain, taskType)
    ensures row.Some? ==>
              exists k :: 0 <= k < |chain| && scope == chain[k].scope
                     && row == resolve(TaskKey(chain[k].scope, chain[k].scopeId, taskType))
                     && forall j :: 0 <= j < k ==> resolve(TaskKey(chain[j].scope, chain[j].scopeId, taskType)).None?
    ensures row.None? ==> scope == DEFAULT
                          && forall j :: 0 <= j < |chain| ==>
                               resolve(TaskKey(chain[j].scope, chain[j].scopeId, taskType)).None?
  {
    for k := 0 to |chain|
      invariant FirstRow(resolve, chain, taskType) == FirstRow(resolve, chain[k..], taskType)
      invariant forall j :: 0 <= j < k ==> resolve(TaskKey(chain[j].scope, chain[j].scopeId, taskType)).None?
    {
      row := resolve(TaskKey(chain[k].scope, chain[k].scopeId, taskType));
      if row.Some? {
        scope := chain[k].scope;
        return;
      }
    }
    scope, row := DEFAULT, None;
  }

  function OperatorChain(operatorId: string, machineType: string, skillLevel: string): seq<ShiftKey> {
    [ShiftKey(OPERATOR, operatorId), ShiftKey(SKILL, SkillScopeId(machineType, skillLevel)),
     ShiftKey(FLEET, machineType)]
  }

  function MachineChain(machineId: string, machineType: string): seq<ShiftKey> {
    [ShiftKey(MACHINE, machineId), ShiftKey(FLEET, machineType)]
  }

  // The features a pair of chain results stands for.
  function FeaturesOf(operator: (Scope, Option<Row>), machine: (Scope, Option<Row>), taskType: string): Features {
    var op, mach := operator.1, machine.1;
    Features(if op.Some? then op.value.minutesPerUnit else DefaultPace(taskType),
             if mach.Some? then mach.value.minutesPerUnit else DefaultPace(taskType),
             if op.Some? then op.value.idleRatio else DEFAULT_IDLE_RATIO,
             if op.Some? then op.value.cycleRate else DEFAULT_CYCLE_RATE,
             operator.0, machine.0)
  }

  function HistoryOf(resolve: TaskKey -> Option<Row>, operatorId: string, machineId: string, machineType: string,
                   skillLevel: string, taskType: string): Features {
    FeaturesOf(FirstRow(resolve, OperatorChain(operatorId, machineType, skillLevel), taskType),
               FirstRow(resolve, MachineChain(machineId, machineType), taskType), taskType)
  }

  // The operator's features are those of one row, or the defaults.
  predicate UsesRow(f: Features, row: Option<Row>, taskType: string) {
    if row.Some? then
      && f.operatorPace == row.value.minutesPerUnit && f.idleRatio == row.value.idleRatio
      && f.cycleRate == row.value.cycleRate
    else f.operatorPace == DefaultPace(taskType) && f.idleRatio == 0.2 && f.cycleRate == 40.0
  }

  // Operator, then operators of that skill on such machines, then all such machines.
  lemma ChainsUnrolled(resolve: TaskKey -> Option<Row>, operatorId: string, machineId: string, machineType: string,
                       skillLevel: string, taskType: string)
    ensures var own, alike := resolve(TaskKey(OPERATOR, operatorId, taskType)),
                              resolve(TaskKey(SKILL, machineType + ":" + skillLevel, taskType));
            var machine, fleet := resolve(TaskKey(MACHINE, machineId, taskType)),
                                  resolve(TaskKey(FLEET, machineType, taskType));
            && FirstRow(resolve, OperatorChain(operatorId, machineType, skillLevel), taskType)
               == (if own.Some? then (OPERATOR, own) else if alike.Some? then (SKILL, alike)
                   else if fleet.Some? then (FLEET, fleet) else (DEFAULT, None))
            && FirstRow(resolve, MachineChain(machineId, machineType), taskType)
               == (if machine.Some? then (MACHINE, machine) else if fleet.Some? then (FLEET, fleet)
                   else (DEFAULT, None))
  {
    var chain := OperatorChain(operatorId, machineType, skillLevel);
    FirstOfChain(resolve, chain, taskType);
    FirstOfChain(resolve, chain[1..], taskType);
    FirstOfChain(resolve, chain[2..], taskType);
    assert chain[1..][1..] == chain[2..] && chain[2..][1..] == [];
    var machines := MachineChain(machineId, machineType);
    FirstOfChain(resolve, machines, taskType);
    FirstOfChain(resolve, machines[1..], taskType);
    assert machines[1..][1..] == [];
  }

  lemma FirstOfChain(resolve: TaskKey -> Option<Row>, chain: seq<ShiftKey>, taskType: string)
    requires chain != []
    ensures var row := resolve(TaskKey(chain[0].scope, chain[0].scopeId, taskType));
            FirstRow(resolve, chain, taskType)
            == if row.Some? then (chain[0].scope, row) else FirstRow(resolve, chain[1..], taskType)
  {
  }

  // An unknown task type gets the slowest of the default paces.
  lemma UnknownTypeIsSlowest(taskType: string, other: string)
    requires taskType !in {"excavation", "trenching", "material_loading"}
    ensures DefaultPace(other) <= DefaultPace(taskType) == DefaultPace("material_loading")
  {
  }

  method ResolveHistory(resolve: TaskKey -> Option<Row>, operatorId: string, machineId: string, machineType: string,
                        skillLevel: string, taskType: string) returns (features: Features)
    ensures features == HistoryOf(resolve, operatorId, machineId, machineType, skillLevel, taskType)
    ensures var own, alike := resolve(TaskKey(OPERATOR, operatorId, taskType)),
                              resolve(TaskKey(SKILL, machineType + ":" + skillLevel, taskType));
            var machine, fleet := resolve(TaskKey(MACHINE, machineId, taskType)),
                                  resolve(TaskKey(FLEET, machineType, taskType));
            && UsesRow(features, if own.Some? then own else if alike.Some? then alike else fleet, taskType)
            && features.operatorScope == (if own.Some? then OPERATOR else if alike.Some? then SKILL
                                          else if fleet.Some? then FLEET else DEFAULT)
            && features.machinePace == (if machine.Some? then machine.value.minutesPerUnit
                                        else if fleet.Some? then fleet.value.minutesPerUnit else DefaultPace(taskType))
            && features.machineScope == if machine.Some? then MACHINE else if fleet.Some? then FLEET else DEFAULT
  {
    ChainsUnrolled(resolve, operatorId, machineId, machineType, skillLevel, taskType);
    var opScope, opRow := FindFirstRow(resolve, OperatorChain(operatorId, machineType, skillLevel), taskType);
    var machScope, machRow := FindFirstRow(resolve, MachineChain(machineId, machineType), taskType);
    features := FeaturesOf((opScope, opRow), (machScope, machRow), taskType);
  }

  lemma {:induction false} SameFirstRow(a: TaskKey -> Option<Row>, b: TaskKey -> Option<Row>, chain: seq<ShiftKey>,
                                        taskType: string)
    requires forall key :: a(key) == b(key)
    ensures FirstRow(a, chain, taskType) == FirstRow(b, chain, taskType)
  {
    if chain != [] { SameFirstRow(a, b, chain[1..], taskType); }
  }

  // --- The order of the deployed rows -----------------------------------------------

  // The scope names in alphabetical order.
  function Rank(s: Scope): nat {
    match s
    case DEFAULT => 0
    case FLEET => 1
    case MACHINE => 2
    case OPERATOR => 3
    case SKILL => 4
  }

  function ScopeName(s: Scope): string {
    match s
    case OPERATOR => "operator"
    case MACHINE => "machine"
    case SKILL => "skill"
    case FLEET => "fleet"
    case DEFAULT => "default"
  }

  lemma RankIsAlphabetical(a: Scope, b: Scope)
    ensures Rank(a) < Rank(b) <==> TextLess(ScopeName(a), ScopeName(b))
  {
    assert a != b ==> ScopeName(a)[0] != ScopeName(b)[0];
    TextOrderIsTotal(ScopeName(a), ScopeName(b));
  }

  // Code point by code point; a proper prefix comes first.
  predicate TextLess(a: string, b: string) {
    b != "" && (a == "" || a[0] < b[0] || (a[0] == b[0] && TextLess(a[1..], b[1..])))
  }

  lemma {:induction false} TextOrderIsTotal(a: string, b: string)
    ensures TextLess(a, b) || TextLess(b, a) || a == b
    ensures TextLess(a, b) ==> !TextLess(b, a) && a != b
  {
    if a != "" && b != "" {
      TextOrderIsTotal(a[1..], b[1..]);
      if a[0] == b[0] && a[1..] == b[1..] { assert a == [a[0]] + a[1..] && b == [b[0]] + b[1..]; }
    }
  }

  lemma {:induction false} TextOrderIsTransitive(a: string, b: string, c: string)
    requires TextLess(a, b) && TextLess(b, c)
    ensures TextLess(a, c)
  {
    if a != "" && a[0] == b[0] == c[0] { TextOrderIsTransitive(a[1..], b[1..], c[1..]); }
  }

  // The order of the key tuples: scope, then scope id, then task type.
  predicate KeyLess(a: TaskKey, b: TaskKey) {
    || Rank(a.scope) < Rank(b.scope)
    || (a.scope == b.scope
        && (TextLess(a.scopeId, b.scopeId) || (a.scopeId == b.scopeId && TextLess(a.taskType, b.taskType))))
  }

  // Tuples of text, part by part.
  predicate TupleLess(a: seq<string>, b: seq<string>)
    requires |a| == |b|
  {
    a != [] && (TextLess(a[0], b[0]) || (a[0] == b[0] && TupleLess(a[1..], b[1..])))
  }

  function KeyTuple(k: TaskKey): seq<string> { [ScopeName(k.scope), k.scopeId, k.taskType] }

  // The order of the rows is that of the tuples the dictionary has as keys.
  lemma KeyOrderIsTupleOrder(a: TaskKey, b: TaskKey)
    ensures KeyLess(a, b) <==> TupleLess(KeyTuple(a), KeyTuple(b))
  {
    RankIsAlphabetical(a.scope, b.scope);
    TupleOrderUnfolds(KeyTuple(a), KeyTuple(b));
    TupleOrderUnfolds([a.scopeId, a.taskType], [b.scopeId, b.taskType]);
    TupleOrderUnfolds([a.taskType], [b.taskType]);
    assert KeyTuple(a)[1..] == [a.scopeId, a.taskType] && KeyTuple(b)[1..] == [b.scopeId, b.taskType];
    assert [a.scopeId, a.taskType][1..] == [a.taskType] && [b.scopeId, b.taskType][1..] == [b.taskType];
    assert [a.taskType][1..] == [] && [b.taskType][1..] == [];
    assert a.scope != b.scope ==> ScopeName(a.scope)[0] != ScopeName(b.scope)[0];
  }

  lemma TupleOrderUnfolds(x: seq<string>, y: seq<string>)
    requires |x| == |y| && x != []
    ensures TupleLess(x, y) <==> TextLess(x[0], y[0]) || (x[0] == y[0] && TupleLess(x[1..], y[1..]))
  {
  }

  lemma KeyOrderIsTotal(a: TaskKey, b: TaskKey)
    ensures KeyLess(a, b) || KeyLess(b, a) || a == b
    ensures KeyLess(a, b) ==> !KeyLess(b, a) && a != b
  {
    TextOrderIsTotal(a.scopeId, b.scopeId);
    TextOrderIsTotal(a.taskType, b.taskType);
  }

  lemma KeyOrderIsTransitive(a: TaskKey, b: TaskKey, c: TaskKey)
    requires KeyLess(a, b) && KeyLess(b, c)
    ensures KeyLess(a, c)
  {
    if a.scope == b.scope == c.scope {
      if TextLess(a.scopeId, b.scopeId) && TextLess(b.scopeId, c.scopeId) {
        TextOrderIsTransitive(a.scopeId, b.scopeId, c.scopeId);
      } else if a.scopeId == b.scopeId == c.scopeId {
        TextOrderIsTransitive(a.taskType, b.taskType, c.taskType);
      }
    }
  }

  ghost predicate Ascending(rows: seq<Row>) {
    forall i, j :: 0 <= i < j < |rows| ==> KeyLess(rows[i].key, rows[j].key)
  }

  lemma LastIsGreatest(rows: seq<Row>, r: Row)
    requires Ascending(rows) && rows != [] && r in rows
    ensures r == rows[|rows| - 1] || KeyLess(r.key, rows[|rows| - 1].key)
  {
    var i :| 0 <= i < |rows| && rows[i] == r;
  }

  // Rows in ascending order are determined by what they are, so the version hash over them does
  // not depend on the order of the statistics' dictionary.
  lemma {:induction false} RowOrderIsDetermined(a: seq<Row>, b: seq<Row>)
    requires Ascending(a) && Ascending(b) && forall r :: r in a <==> r in b
    ensures a == b
  {
    assert (a != [] ==> a[0] in b) && (b != [] ==> b[0] in a);
    if a != [] && b != [] {
      var m, n := |a| - 1, |b| - 1;
      assert a[m] in b && b[n] in a;
      LastIsGreatest(b, a[m]);
      LastIsGreatest(a, b[n]);
      KeyOrderIsTotal(a[m].key, b[n].key);
      forall r ensures r in a[..m] <==> r in b[..n] { OthersAreBefore(a, r); OthersAreBefore(b, r); }
      RowOrderIsDetermined(a[..m], b[..n]);
      assert a == a[..m] + [a[m]] && b == b[..n] + [b[n]];
    }
  }

  lemma OthersAreBefore(rows: seq<Row>, r: Row)
    requires Ascending(rows) && rows != []
    ensures r in rows[..|rows| - 1] <==> r in rows && r != rows[|rows| - 1]
  {
    var n := |rows| - 1;
    forall i | 0 <= i < n ensures rows[i] != rows[n] { KeyOrderIsTotal(rows[i].key, rows[n].key); }
    assert rows == rows[..n] + [rows[n]];
  }

  lemma DeployedRowsAreDetermined(a: seq<Row>, b: seq<Row>, pace: map<TaskKey, Acc>, shift: map<ShiftKey, Acc>)
    requires RowsAre(a, pace, shift) && RowsAre(b, pace, shift)
    ensures a == b
  {
    forall r ensures r in a <==> r in b {}
    RowOrderIsDetermined(a, b);
  }

  // --- The objects ------------------------------------------------------------------

  class AggregateStats {
    var pace: map<TaskKey, Acc>
    var shift: map<ShiftKey, Acc>

    constructor (tasks: seq<TaskHistory>, shifts: seq<ShiftHistory>)
      ensures IsSums(pace, TaskSamples(tasks)) && IsSums(shift, ShiftSamples(shifts))
    {
      new;
      pace := Accumulate(TaskSamples(tasks));
      shift := Accumulate(ShiftSamples(shifts));
    }

    // All trusted aggregates, sorted by key.
    method ToRows() returns (rows: seq<Row>)
      ensures RowsAre(rows, pace, shift)
    {
      rows := [];
      var todo := pace.Keys;
      while todo != {}
        invariant todo <= pace.Keys && Ascending(rows)
        invariant forall i, k :: 0 <= i < |rows| && k in todo ==> KeyLess(rows[i].key, k)
        invariant forall i :: 0 <= i < |rows| ==>
                    rows[i].key in pace.Keys - todo && Resolve(pace, shift, None, None, rows[i].key) == Some(rows[i])
        invariant forall key :: key in pace.Keys - todo && Resolve(pace, shift, None, None, key).Some? ==>
                    Resolve(pace, shift, None, None, key).value in rows
        decreases |todo|
      {
        var key := LeastKey(todo);
        var row := Resolve(pace, shift, None, None, key);
        if row.Some? { rows := rows + [row.value]; }
        todo := todo - {key};
      }
    }
  }

  // The first key of those still to go, as sorting hands it out.
  method LeastKey(keys: set<TaskKey>) returns (least: TaskKey)
    requires keys != {}
    ensures least in keys && forall k :: k in keys && k != least ==> KeyLess(least, k)
  {
    var x :| x in keys;
    least := x;
    var todo := keys - {x};
    while todo != {}
      invariant todo <= keys && least in keys - todo
      invariant forall k :: k in keys - todo && k != least ==> KeyLess(least, k)
      decreases |todo|
    {
      var k :| k in todo;
      KeyOrderIsTotal(k, least);
      if KeyLess(k, least) {
        forall j | j in keys - todo && j != least ensures KeyLess(k, j) { KeyOrderIsTransitive(k, least, j); }
        least := k;
      }
      todo := todo - {k};
    }
  }

  // Exactly the rows the live statistics resolve, sorted by key.
  ghost predicate RowsAre(rows: seq<Row>, pace: map<TaskKey, Acc>, shift: map<ShiftKey, Acc>) {
    && Ascending(rows)
    && (forall i :: 0 <= i < |rows| ==> Resolve(pace, shift, None, None, rows[i].key) == Some(rows[i]))
    && (forall key :: Resolve(pace, shift, None, None, key).Some? ==>
          Resolve(pace, shift, None, None, key).value in rows)
  }

  // The newest row of a list with the given key.
  function LastRow(list: seq<Row>, key: TaskKey): Option<Row> {
    if list == [] then None
    else if list[|list| - 1].key == key then Some(list[|list| - 1])
    else LastRow(list[..|list| - 1], key)
  }

  class AggregateTable {
    var rows: map<TaskKey, Row>

    constructor (list: seq<Row>)
      ensures forall key :: Get(rows, key) == LastRow(list, key)
    {
      new;
      rows := map[];
      for i := 0 to |list|
        invariant forall key :: Get(rows, key) == LastRow(list[..i], key)
      {
        rows := rows[list[i].key := list[i]];
        assert list[..i + 1][..i] == list[..i];
      }
      assert list[..|list|] == list;
    }

    method History(operatorId: string, machineId: string, machineType: string, skillLevel: string, taskType: string)
      returns (features: Features)
      ensures features == HistoryOf(TableLookup(rows), operatorId, machineId, machineType, skillLevel, taskType)
    {
      features := ResolveHistory(TableLookup(rows), operatorId, machineId, machineType, skillLevel, taskType);
    }
  }

  // Deploy the statistics and ask the deployed table: the features are those of the live statistics.
  method DeployedHistory(stats: AggregateStats, operatorId: string, machineId: string, machineType: string,
                         skillLevel: string, taskType: string)
    returns (features: Features)
    ensures features
            == HistoryOf(LiveLookup(stats.pace, stats.shift), operatorId, machineId, machineType, skillLevel, taskType)
  {
    var list := stats.ToRows();
    var table := new AggregateTable(list);
    features := table.History(operatorId, machineId, machineType, skillLevel, taskType);
    DeployedTableAgrees(stats.pace, stats.shift, list, table.rows, operatorId, machineId, machineType, skillLevel,
                        taskType);
  }

  function TableLookup(rows: map<TaskKey, Row>): TaskKey -> Option<Row> { key => Get(rows, key) }

  function LiveLookup(pace: map<TaskKey, Acc>, shift: map<ShiftKey, Acc>): TaskKey -> Option<Row> {
    key => Resolve(pace, shift, None, None, key)
  }

  lemma {:induction false} LastRowIsListed(list: seq<Row>, key: TaskKey)
    ensures LastRow(list, key).Some? ==> LastRow(list, key).value in list && LastRow(list, key).value.key == key
    ensures LastRow(list, key).None? ==> forall r :: r in list ==> r.key != key
  {
    if list != [] {
      LastRowIsListed(list[..|list| - 1], key);
      assert list == list[..|list| - 1] + [list[|list| - 1]];
    }
  }

  // The table deployed from the live statistics' rows gives every task the features the live
  // resolver gives it.
  lemma DeployedTableAgrees(pace: map<TaskKey, Acc>, shift: map<ShiftKey, Acc>, list: seq<Row>, rows: map<TaskKey, Row>,
                            operatorId: string, machineId: string, machineType: string, skillLevel: string,
                            taskType: string)
    requires RowsAre(list, pace, shift) && forall key :: Get(rows, key) == LastRow(list, key)
    ensures HistoryOf(TableLookup(rows), operatorId, machineId, machineType, skillLevel, taskType)
         == HistoryOf(LiveLookup(pace, shift), operatorId, machineId, machineType, skillLevel, taskType)
  {
    var table, live := TableLookup(rows), LiveLookup(pace, shift);
    forall key ensures table(key) == live(key) {
      LastRowIsListed(list, key);
    }
    SameFirstRow(table, live, OperatorChain(operatorId, machineType, skillLevel), taskType);
    SameFirstRow(table, live, MachineChain(machineId, machineType), taskType);
  }
}
