// Engines per machine, committed and rolled-back ticks, acknowledgements and shift hand-overs
// (backend/app/edge/telemetry/pipeline.py), and the clock driver's open-incident counter
// (backend/simulator/live/clock_driver.py).
module AutoSlow {
  import opened Prelude
  import opened RuleMachine
  import opened SafetyEngine

  datatype Context = Context(shiftId: string, engine: Engine)

  // forgotten is history: the incidents written before streaming last stopped.
  datatype System = System(contexts: map<string, Context>, rows: Rows, count: nat, forgotten: set<string>)

  const START := System(map[], map[], 0, {})

  datatype Action =
    | TickArrives(machineId: string, shiftId: string, tick: Tick, rules: seq<Slot>, commits: bool)
    | Acknowledge(id: string, operatorId: string, speed: Option<real>, now: real)
    | Report(id: string, machineId: string, operatorId: string, now: real)
    | StopStreaming

  // The slots of a new engine.
  ghost predicate Fresh(rules: seq<Slot>) {
    forall k :: 0 <= k < |rules| ==> rules[k].machine.Idle? && !rules[k].degraded && rules[k].openId.None?
  }

  predicate SameShift(s: System, machineId: string, shiftId: string) {
    machineId in s.contexts && s.contexts[machineId].shiftId == shiftId
  }

  // The engine a tick runs on; a new one when the machine starts or changes shift.
  function EngineFor(s: System, machineId: string, shiftId: string, rules: seq<Slot>): Engine {
    if SameShift(s, machineId, shiftId) then s.contexts[machineId].engine else Engine(machineId, rules, {}, [], map[])
  }

  // What a new engine takes over from the previous shift's.
  function TakenOver(s: System, machineId: string, shiftId: string): set<string> {
    if machineId in s.contexts && s.contexts[machineId].shiftId != shiftId then s.contexts[machineId].engine.unresolved
    else {}
  }

  ghost predicate Enabled(s: System, a: Action) {
    match a
    case TickArrives(m, shift, t, rules, _) =>
      && Fresh(rules) && |EngineFor(s, m, shift, rules).slots| <= |t.readings| && FreshIds(t, s.rows, 0)
    case Report(id, _, _, _) => id !in s.rows
    case _ => true
  }

  function AfterTick(s: System, m: string, shift: string, t: Tick, rules: seq<Slot>): Work
    requires |EngineFor(s, m, shift, rules).slots| <= |t.readings|
  {
    var e := EngineFor(s, m, shift, rules);
    Processed(Work(e, s.rows), t, |e.slots|)
  }

  function Next(s: System, a: Action): System
    requires Enabled(s, a)
  {
    match a
    case TickArrives(m, shift, t, rules, commits) =>
      if !commits then s
      else
        var r := AfterTick(s, m, shift, t, rules);
        var installed := r.engine.(effects := [], unresolved := r.engine.unresolved + TakenOver(s, m, shift));
        System(s.contexts[m := Context(shift, installed)], r.rows, Applied(s.count, r.engine.effects), s.forgotten)
    case Acknowledge(id, operatorId, speed, now) =>
      if id !in s.rows then s
      else
        var outcome := Acknowledged(s.rows[id], speed, operatorId, now);
        if outcome.Err? then s else Notified(s.(rows := s.rows[id := outcome.value]), id)
    case Report(id, m, operatorId, now) =>
      s.(rows := s.rows[id := Incident(m, operatorId, false, false, OPEN, Some(now), None)])
    case StopStreaming => System(map[], s.rows, 0, s.rows.Keys)
  }

  // The acknowledgement route tells the machine's engine about a resolved incident.
  function Notified(s: System, id: string): System
    requires id in s.rows
  {
    var m := s.rows[id].machineId;
    if s.rows[id].status != RESOLVED || m !in s.contexts || id !in s.contexts[m].engine.unresolved then s
    else
      var e := s.contexts[m].engine;
      s.(contexts := s.contexts[m := s.contexts[m].(engine := e.(unresolved := e.unresolved - {id}))],
         count := Applied(s.count, [NotifyClosed]))
  }

  // --- The invariant ----------------------------------------------------------------

  // Every engine incident of this run of the stream that is not resolved.
  function Tracked(rows: Rows, forgotten: set<string>): set<string> {
    set id | id in rows && rows[id].fromEngine && rows[id].status != RESOLVED && id !in forgotten
  }

  ghost predicate ContextSound(c: Context, m: string, rows: Rows, forgotten: set<string>) {
    && c.engine.machineId == m && c.engine.effects == []
    && Linked(c.engine, rows) && c.engine.unresolved == Own(rows, m, forgotten)
  }

  ghost predicate ContextsSound(contexts: map<string, Context>, rows: Rows, forgotten: set<string>) {
    forall m :: m in contexts ==> ContextSound(contexts[m], m, rows, forgotten)
  }

  ghost predicate Homed(contexts: map<string, Context>, rows: Rows, forgotten: set<string>) {
    forall id :: id in Tracked(rows, forgotten) ==> rows[id].machineId in contexts
  }

  ghost predicate SystemSound(s: System) {
    && RowsSound(s.rows) && s.forgotten <= s.rows.Keys
    && ContextsSound(s.contexts, s.rows, s.forgotten) && Homed(s.contexts, s.rows, s.forgotten)
    && s.count == |Tracked(s.rows, s.forgotten)|
  }

  // The tracked incidents of one machine, and the rest.
  lemma SplitTracked(rows: Rows, forgotten: set<string>, m: string)
    ensures var own := Own(rows, m, forgotten);
            own <= Tracked(rows, forgotten) && |Tracked(rows, forgotten)| == |own| + |Tracked(rows, forgotten) - own|
  {
    var own := Own(rows, m, forgotten);
    assert Tracked(rows, forgotten) == own + (Tracked(rows, forgotten) - own);
  }

  lemma OthersTracked(before: Rows, after: Rows, forgotten: set<string>, m: string)
    requires Frames(before, after, m)
    ensures Tracked(before, forgotten) - Own(before, m, forgotten)
            == Tracked(after, forgotten) - Own(after, m, forgotten)
  {
  }

  lemma OtherEngineKeeps(c: Context, n: string, before: Rows, after: Rows, forgotten: set<string>, m: string)
    requires n != m && Frames(before, after, m) && ContextSound(c, n, before, forgotten)
    ensures ContextSound(c, n, after, forgotten)
  {
    assert Own(after, n, forgotten) == Own(before, n, forgotten);
    forall k | 0 <= k < |c.engine.slots| ensures SlotLinked(c.engine.slots[k], n, after, c.engine.unresolved) {
      assert SlotLinked(c.engine.slots[k], n, before, c.engine.unresolved);
    }
  }

  lemma LinkedWithMore(e: Engine, rows: Rows, more: set<string>)
    requires Linked(e, rows)
    ensures Linked(e.(effects := [], unresolved := e.unresolved + more), rows)
  {
    var e' := e.(effects := [], unresolved := e.unresolved + more);
    forall k | 0 <= k < |e'.slots| ensures SlotLinked(e'.slots[k], e'.machineId, rows, e'.unresolved) {
      assert SlotLinked(e.slots[k], e.machineId, rows, e.unresolved);
    }
  }

  lemma FreshEngineLinks(m: string, rules: seq<Slot>, rows: Rows)
    requires Fresh(rules)
    ensures Linked(Engine(m, rules, {}, [], map[]), rows)
  {
  }

  // What an engine starting a tick tracks, and what it will take over.
  lemma TickStartsTracking(s: System, m: string, shift: string, rules: seq<Slot>)
    requires SystemSound(s)
    ensures var e := EngineFor(s, m, shift, rules);
            && e.machineId == m && e.effects == [] && e.unresolved !! TakenOver(s, m, shift)
            && e.unresolved + TakenOver(s, m, shift) == Own(s.rows, m, s.forgotten)
  {
    if m in s.contexts {
      assert ContextSound(s.contexts[m], m, s.rows, s.forgotten);
    } else {
      assert Own(s.rows, m, s.forgotten) <= Tracked(s.rows, s.forgotten);
    }
  }

  // The state a tick starts from is sound relative to what the previous shift's engine tracks.
  lemma TickStartsSound(s: System, m: string, shift: string, rules: seq<Slot>)
    requires SystemSound(s) && Fresh(rules)
    ensures var e := EngineFor(s, m, shift, rules);
            && e.machineId == m && |e.unresolved| <= s.count
            && Sound(Work(e, s.rows), TakenOver(s, m, shift), s.forgotten, s.count, |e.unresolved|)
  {
    var e := EngineFor(s, m, shift, rules);
    SplitTracked(s.rows, s.forgotten, m);
    TickStartsTracking(s, m, shift, rules);
    assert |e.unresolved + TakenOver(s, m, shift)| == |e.unresolved| + |TakenOver(s, m, shift)|;
    if SameShift(s, m, shift) {
      assert ContextSound(s.contexts[m], m, s.rows, s.forgotten);
    } else {
      FreshEngineLinks(m, rules, s.rows);
    }
  }

  lemma TickIsSound(s: System, m: string, shift: string, t: Tick, rules: seq<Slot>)
    requires SystemSound(s) && Enabled(s, TickArrives(m, shift, t, rules, true))
    ensures SystemSound(Next(s, TickArrives(m, shift, t, rules, true)))
    ensures NoClamp(s.count, AfterTick(s, m, shift, t, rules).engine.effects)
  {
    var e := EngineFor(s, m, shift, rules);
    var other := TakenOver(s, m, shift);
    TickStartsSound(s, m, shift, rules);
    ProcessingIsSound(Work(e, s.rows), t, |e.slots|, other, s.forgotten, s.count, |e.unresolved|);
    var r := AfterTick(s, m, shift, t, rules);
    var s' := Next(s, TickArrives(m, shift, t, rules, true));
    LinkedWithMore(r.engine, r.rows, other);
    forall n | n in s'.contexts ensures ContextSound(s'.contexts[n], n, s'.rows, s'.forgotten) {
      if n != m { OtherEngineKeeps(s.contexts[n], n, s.rows, r.rows, s.forgotten, m); }
    }
    TickCounts(s, m, e.unresolved, other, r);
    assert Homed(s'.contexts, s'.rows, s'.forgotten);
  }

  lemma TickCounts(s: System, m: string, started: set<string>, other: set<string>, r: Work)
    requires Frames(s.rows, r.rows, m) && s.count == |Tracked(s.rows, s.forgotten)|
    requires started !! other && started + other == Own(s.rows, m, s.forgotten)
    requires r.engine.unresolved !! other && r.engine.unresolved + other == Own(r.rows, m, s.forgotten)
    requires Balanced(s.count, |started|, r)
    ensures Applied(s.count, r.engine.effects) == |Tracked(r.rows, s.forgotten)|
  {
    SplitTracked(s.rows, s.forgotten, m);
    SplitTracked(r.rows, s.forgotten, m);
    OthersTracked(s.rows, r.rows, s.forgotten, m);
    assert |started + other| == |started| + |other|;
    assert |r.engine.unresolved + other| == |r.engine.unresolved| + |other|;
  }

  lemma RowUpdateFrames(rows: Rows, id: string, i: Incident)
    requires id in rows && i.machineId == rows[id].machineId && i.fromEngine == rows[id].fromEngine
    ensures Frames(rows, rows[id := i], i.machineId)
  {
  }

  lemma AcknowledgedRow(i: Incident, speed: Option<real>, operatorId: string, now: real)
    requires RowSound(i) && Acknowledged(i, speed, operatorId, now).Ok?
    ensures var i' := Acknowledged(i, speed, operatorId, now).value;
            && RowSound(i') && i'.machineId == i.machineId && i'.fromEngine == i.fromEngine && i'.critical == i.critical
            && i'.eventEnd == i.eventEnd && (i'.status == RESOLVED <==> i.eventEnd.Some?)
            && (i.status == RESOLVED ==> i'.status == RESOLVED)
  {
  }

  // Acknowledging changes one row, never its end time or severity, so every slot stays linked.
  lemma AckKeepsContext(c: Context, n: string, s: System, id: string, i: Incident)
    requires ContextSound(c, n, s.rows, s.forgotten) && id in s.rows && RowSound(s.rows[id])
    requires i.machineId == s.rows[id].machineId && i.fromEngine == s.rows[id].fromEngine
    requires i.critical == s.rows[id].critical
    requires i.eventEnd == s.rows[id].eventEnd && (i.status == RESOLVED <==> i.eventEnd.Some?)
    ensures var u := if i.status == RESOLVED then c.engine.unresolved - {id} else c.engine.unresolved;
            ContextSound(c.(engine := c.engine.(unresolved := u)), n, s.rows[id := i], s.forgotten)
  {
    var rows := s.rows[id := i];
    var u := if i.status == RESOLVED then c.engine.unresolved - {id} else c.engine.unresolved;
    forall k | 0 <= k < |c.engine.slots| ensures SlotLinked(c.engine.slots[k], n, rows, u) {
      assert SlotLinked(c.engine.slots[k], n, s.rows, c.engine.unresolved);
    }
    assert Own(rows, n, s.forgotten) == u;
  }

  // Whose incident it is, and that its machine is known to stand still unless it is resolved already.
  predicate MayAcknowledge(rows: Rows, id: string, operatorId: string, speed: Option<real>) {
    && id in rows && rows[id].operatorId == operatorId
    && (rows[id].status == RESOLVED || (speed.Some? && speed.value <= 0.0))
  }

  // What an accepted acknowledgement leaves of a row: resolved once the hazard has ended, else
  // acknowledged; a row that is resolved already as it is, and the time of a first acknowledgement.
  predicate AcknowledgedAs(before: Incident, after: Incident, now: real) {
    && after == before.(status := after.status, acknowledgedAt := after.acknowledgedAt)
    && (before.status == RESOLVED ==> after == before)
    && (before.status != RESOLVED ==> after.status == if before.eventEnd.None? then ACKNOWLEDGED else RESOLVED)
    && (before.status != RESOLVED ==>
          if before.acknowledgedAt.Some? then after.acknowledgedAt == before.acknowledgedAt
          else after.acknowledgedAt == Some(now))
  }

  // An acknowledgement changes the system exactly when it is allowed: one row, and, where the engine
  // of its machine tracks an incident that is now resolved, that engine's tracked set and the count.
  lemma AcknowledgesExactly(s: System, id: string, operatorId: string, speed: Option<real>, now: real)
    ensures var t := Next(s, Acknowledge(id, operatorId, speed, now));
            if !MayAcknowledge(s.rows, id, operatorId, speed) then t == s
            else
              && id in t.rows && AcknowledgedAs(s.rows[id], t.rows[id], now) && t.rows == s.rows[id := t.rows[id]]
              && t.contexts.Keys == s.contexts.Keys && t.forgotten == s.forgotten
              && forall m :: m in s.contexts ==>
                   t.contexts[m] == s.contexts[m].(engine := s.contexts[m].engine.(unresolved :=
                     if m == s.rows[id].machineId && t.rows[id].status == RESOLVED
                     then s.contexts[m].engine.unresolved - {id} else s.contexts[m].engine.unresolved))
  {
    if MayAcknowledge(s.rows, id, operatorId, speed) {
      var m := s.rows[id].machineId;
      if m in s.contexts && id !in s.contexts[m].engine.unresolved {
        assert s.contexts[m].engine.unresolved - {id} == s.contexts[m].engine.unresolved;
      }
    }
  }

  // An operator's own report slows nothing down, and resolves with its first acknowledgement.
  lemma ReportResolvesOnceAcknowledged(s: System, id: string, m: string, operatorId: string, now: real, later: real)
    requires id !in s.rows
    ensures var t := Next(s, Report(id, m, operatorId, now));
            && t.contexts == s.contexts && t.count == s.count
            && Tracked(t.rows, t.forgotten) == Tracked(s.rows, s.forgotten)
            && id in t.rows && t.rows[id].status == OPEN && t.rows[id].operatorId == operatorId
            && id in Next(t, Acknowledge(id, operatorId, Some(0.0), later)).rows
            && Next(t, Acknowledge(id, operatorId, Some(0.0), later)).rows[id].status == RESOLVED
  {
    var t := Next(s, Report(id, m, operatorId, now));
    assert Tracked(t.rows, t.forgotten) == Tracked(s.rows, s.forgotten);
    AcknowledgesExactly(t, id, operatorId, Some(0.0), later);
  }

  // The acknowledgement resolves an incident that the engine installed on its machine still tracks.
  predicate ResolvesTracked(s: System, id: string, operatorId: string, speed: Option<real>, now: real) {
    && id in s.rows && Acknowledged(s.rows[id], speed, operatorId, now).Ok?
    && Acknowledged(s.rows[id], speed, operatorId, now).value.status == RESOLVED
    && s.rows[id].machineId in s.contexts && id in s.contexts[s.rows[id].machineId].engine.unresolved
  }

  // Such an acknowledgement finds the incident counted and takes it off the count; any other one
  // leaves the count alone.
  lemma AckIsSound(s: System, id: string, operatorId: string, speed: Option<real>, now: real)
    requires SystemSound(s)
    ensures SystemSound(Next(s, Acknowledge(id, operatorId, speed, now)))
    ensures ResolvesTracked(s, id, operatorId, speed, now) ==>
              && s.count > 0 && NoClamp(s.count, [NotifyClosed])
              && Next(s, Acknowledge(id, operatorId, speed, now)).count == s.count - 1
    ensures !ResolvesTracked(s, id, operatorId, speed, now) ==>
              Next(s, Acknowledge(id, operatorId, speed, now)).count == s.count
  {
    if id in s.rows && Acknowledged(s.rows[id], speed, operatorId, now).Ok? {
      var i := Acknowledged(s.rows[id], speed, operatorId, now).value;
      AcknowledgedRow(s.rows[id], speed, operatorId, now);
      AckedIsSound(s, id, i);
      AckedCount(s, id, i);
      EngineTracksIt(s, id);
    }
  }

  // The acknowledged row: same machine, source, severity and end; resolved exactly when ended.
  ghost predicate IsAckOf(before: Incident, after: Incident) {
    && RowSound(before) && RowSound(after)
    && after.machineId == before.machineId && after.fromEngine == before.fromEngine && after.critical == before.critical
    && after.eventEnd == before.eventEnd && (after.status == RESOLVED <==> after.eventEnd.Some?)
  }

  lemma AckedContexts(s: System, id: string, i: Incident, n: string)
    requires SystemSound(s) && id in s.rows && IsAckOf(s.rows[id], i) && n in s.contexts
    ensures var s' := Notified(s.(rows := s.rows[id := i]), id);
            n in s'.contexts && ContextSound(s'.contexts[n], n, s'.rows, s'.forgotten)
  {
    assert ContextSound(s.contexts[n], n, s.rows, s.forgotten);
    if n == i.machineId {
      AckKeepsContext(s.contexts[n], n, s, id, i);
      if id !in s.contexts[n].engine.unresolved {
        assert s.contexts[n].engine.unresolved - {id} == s.contexts[n].engine.unresolved;
      }
    } else {
      RowUpdateFrames(s.rows, id, i);
      OtherEngineKeeps(s.contexts[n], n, s.rows, s.rows[id := i], s.forgotten, i.machineId);
    }
  }

  lemma AckedTracked(rows: Rows, forgotten: set<string>, id: string, i: Incident)
    requires id in rows && IsAckOf(rows[id], i)
    ensures Tracked(rows[id := i], forgotten)
         == if i.status == RESOLVED then Tracked(rows, forgotten) - {id} else Tracked(rows, forgotten)
  {
  }

  // The engine that hears of the acknowledgement tracks the incident exactly when it counts.
  lemma EngineTracksIt(s: System, id: string)
    requires SystemSound(s) && id in s.rows
    ensures var m := s.rows[id].machineId;
            id in Tracked(s.rows, s.forgotten) <==> m in s.contexts && id in s.contexts[m].engine.unresolved
  {
    var m := s.rows[id].machineId;
    if m in s.contexts { assert ContextSound(s.contexts[m], m, s.rows, s.forgotten); }
  }

  lemma AckedCount(s: System, id: string, i: Incident)
    requires SystemSound(s) && id in s.rows && IsAckOf(s.rows[id], i)
    ensures var s' := Notified(s.(rows := s.rows[id := i]), id);
            && s'.count == |Tracked(s'.rows, s.forgotten)|
            && (if i.status == RESOLVED && id in Tracked(s.rows, s.forgotten)
                then s.count > 0 && NoClamp(s.count, [NotifyClosed]) && s'.count == s.count - 1
                else s'.count == s.count)
  {
    EngineTracksIt(s, id);
    AckedTracked(s.rows, s.forgotten, id, i);
    assert [NotifyClosed][..0] == [];
    assert Applied(s.count, [NotifyClosed]) == if s.count == 0 then 0 else s.count - 1;
    if id in Tracked(s.rows, s.forgotten) { assert s.count > 0; }
  }

  lemma AckedIsSound(s: System, id: string, i: Incident)
    requires SystemSound(s) && id in s.rows && IsAckOf(s.rows[id], i)
    ensures SystemSound(Notified(s.(rows := s.rows[id := i]), id))
  {
    AckedCount(s, id, i);
    AckedTracked(s.rows, s.forgotten, id, i);
    var s' := Notified(s.(rows := s.rows[id := i]), id);
    forall n | n in s'.contexts ensures ContextSound(s'.contexts[n], n, s'.rows, s'.forgotten) {
      AckedContexts(s, id, i, n);
    }
  }

  lemma ReportIsSound(s: System, id: string, m: string, operatorId: string, now: real)
    requires SystemSound(s) && id !in s.rows
    ensures SystemSound(Next(s, Report(id, m, operatorId, now)))
  {
    var s' := Next(s, Report(id, m, operatorId, now));
    assert Tracked(s'.rows, s.forgotten) == Tracked(s.rows, s.forgotten);
    forall n | n in s.contexts ensures ContextSound(s.contexts[n], n, s'.rows, s.forgotten) {
      assert ContextSound(s.contexts[n], n, s.rows, s.forgotten);
      assert Own(s'.rows, n, s.forgotten) == Own(s.rows, n, s.forgotten);
    }
  }

  lemma StepIsSound(s: System, a: Action)
    requires SystemSound(s) && Enabled(s, a)
    ensures SystemSound(Next(s, a))
  {
    match a
    case TickArrives(m, shift, t, rules, commits) => if commits { TickIsSound(s, m, shift, t, rules); }
    case Acknowledge(id, operatorId, speed, now) => AckIsSound(s, id, operatorId, speed, now);
    case Report(id, m, operatorId, now) => ReportIsSound(s, id, m, operatorId, now);
    case StopStreaming => assert Tracked(s.rows, s.rows.Keys) == {};
  }

  // --- Whole runs -------------------------------------------------------------------

  // An action that is not possible changes nothing.
  ghost function Take(s: System, a: Action): System {
    if Enabled(s, a) then Next(s, a) else s
  }

  ghost function Execute(s: System, actions: seq<Action>): System
    decreases |actions|
  {
    if actions == [] then s else Execute(Take(s, actions[0]), actions[1..])
  }

  lemma {:induction false} RunIsSound(s: System, actions: seq<Action>)
    requires SystemSound(s)
    ensures SystemSound(Execute(s, actions))
    decreases |actions|
  {
    if actions != [] {
      if Enabled(s, actions[0]) { StepIsSound(s, actions[0]); }
      RunIsSound(Take(s, actions[0]), actions[1..]);
    }
  }

  // In every reachable state the open-incident counter is the number of unresolved incidents the
  // installed engines track, and these are exactly the engine incidents written since streaming
  // last stopped that are not resolved; no incident is tracked by two engines.
  lemma CounterIsExact(actions: seq<Action>)
    ensures var s := Execute(START, actions);
            && s.count == |Tracked(s.rows, s.forgotten)|
            && (forall id :: id in Tracked(s.rows, s.forgotten) <==>
                               exists m :: m in s.contexts && id in s.contexts[m].engine.unresolved)
            && (forall m, n :: m in s.contexts && n in s.contexts && m != n ==>
                                 s.contexts[m].engine.unresolved !! s.contexts[n].engine.unresolved)
  {
    var s := Execute(START, actions);
    RunIsSound(START, actions);
    forall m | m in s.contexts ensures s.contexts[m].engine.unresolved == Own(s.rows, m, s.forgotten) {
      assert ContextSound(s.contexts[m], m, s.rows, s.forgotten);
    }
    forall id | id in Tracked(s.rows, s.forgotten)
      ensures exists m :: m in s.contexts && id in s.contexts[m].engine.unresolved
    {
      assert s.rows[id].machineId in s.contexts;
    }
  }

  // The clamp at zero never fires: every closing notification, of a tick or of an acknowledgement,
  // finds an open incident counted.
  lemma ClampNeverFires(actions: seq<Action>, a: Action)
    requires Enabled(Execute(START, actions), a)
    ensures var s := Execute(START, actions);
            match a
            case TickArrives(m, shift, t, rules, _) => NoClamp(s.count, AfterTick(s, m, shift, t, rules).engine.effects)
            case Acknowledge(id, operatorId, speed, now) =>
              if ResolvesTracked(s, id, operatorId, speed, now)
              then s.count > 0 && NoClamp(s.count, [NotifyClosed]) && Next(s, a).count == s.count - 1
              else Next(s, a).count == s.count
            case _ => true
  {
    var s := Execute(START, actions);
    RunIsSound(START, actions);
    match a
    case TickArrives(m, shift, t, rules, _) => TickIsSound(s, m, shift, t, rules);
    case Acknowledge(id, operatorId, speed, now) => AckIsSound(s, id, operatorId, speed, now);
    case _ =>
  }

  // A resolved incident ended and was a WARNING or acknowledged; an acknowledged one has not
  // ended; and a rule holds an incident exactly while its machine is active or clearing, with
  // the machine's severity as the stored peak.
  lemma IncidentLifecycle(actions: seq<Action>)
    ensures var s := Execute(START, actions);
            && RowsSound(s.rows)
            && forall m, k :: m in s.contexts && 0 <= k < |s.contexts[m].engine.slots| ==>
                 SlotLinked(s.contexts[m].engine.slots[k], m, s.rows, s.contexts[m].engine.unresolved)
  {
    var s := Execute(START, actions);
    RunIsSound(START, actions);
    forall m, k | m in s.contexts && 0 <= k < |s.contexts[m].engine.slots|
      ensures SlotLinked(s.contexts[m].engine.slots[k], m, s.rows, s.contexts[m].engine.unresolved)
    {
      assert ContextSound(s.contexts[m], m, s.rows, s.forgotten);
    }
  }

  // --- Incidents that can no longer resolve -----------------------------------------

  // A rule that still runs holds the incident.
  ghost predicate Holds(e: Engine, id: string) {
    exists k :: 0 <= k < |e.slots| && e.slots[k].openId == Some(id) && !e.slots[k].degraded
  }

  // An engine incident whose hazard has not ended and that no running rule holds.
  ghost predicate Stuck(s: System, id: string) {
    && id in s.rows && s.rows[id].fromEngine && s.rows[id].eventEnd.None?
    && forall m :: m in s.contexts ==> !Holds(s.contexts[m].engine, id)
  }

  // Rule k only touches its own slot, and may only take up the new id.
  lemma EvaluationTouchesSlot(w: Work, k: nat, t: Tick)
    requires k < |w.engine.slots| && k < |t.readings|
    ensures var r := Evaluated(w, k, t);
            && (forall j :: 0 <= j < |w.engine.slots| && j != k ==> r.engine.slots[j] == w.engine.slots[j])
            && (w.engine.slots[k].degraded ==> r.engine.slots[k].degraded)
            && (r.engine.slots[k].openId.None? || r.engine.slots[k].openId == w.engine.slots[k].openId
                || (t.readings[k].Reads? && r.engine.slots[k].openId == Some(t.readings[k].newId)))
  {
  }

  // A row that rule k does not hold and that is not new stays.
  lemma EvaluationLeavesRow(w: Work, k: nat, t: Tick, id: string)
    requires k < |w.engine.slots| && k < |t.readings| && id in w.rows
    requires w.engine.slots[k].degraded || w.engine.slots[k].openId != Some(id)
    requires t.readings[k].Reads? ==> t.readings[k].newId != id
    ensures id in Evaluated(w, k, t).rows && Evaluated(w, k, t).rows[id] == w.rows[id]
  {
  }

  lemma EvaluationLeavesStuck(w: Work, k: nat, t: Tick, id: string)
    requires k < |w.engine.slots| && k < |t.readings| && id in w.rows && !Holds(w.engine, id)
    requires t.readings[k].Reads? ==> t.readings[k].newId !in w.rows
    ensures id in Evaluated(w, k, t).rows && Evaluated(w, k, t).rows[id] == w.rows[id]
    ensures !Holds(Evaluated(w, k, t).engine, id)
  {
    EvaluationTouchesSlot(w, k, t);
    EvaluationLeavesRow(w, k, t, id);
  }

  // The incident is as it was, and still held by no running rule.
  ghost predicate LeftStuck(w: Work, r: Work, id: string) {
    && id in w.rows && id in r.rows && r.rows[id].eventEnd.None? && r.rows[id].status == w.rows[id].status
    && r.rows[id].fromEngine == w.rows[id].fromEngine && !Holds(r.engine, id)
  }

  lemma OneRuleLeavesStuck(w: Work, r: Work, k: nat, t: Tick, id: string)
    requires k < |r.engine.slots| && k < |t.readings| && FreshIds(t, w.rows, 0)
    requires LeftStuck(w, r, id) && UsedOnly(w, r, t, k)
    ensures LeftStuck(w, Evaluated(r, k, t), id) && UsedOnly(w, Evaluated(r, k, t), t, k + 1)
  {
    if t.readings[k].Reads? { NextIdIsFresh(w, r, t, k); }
    EvaluationLeavesStuck(r, k, t, id);
    OneMoreId(r, k, t);
    UsedOneMore(w, r, Evaluated(r, k, t), t, k);
  }

  lemma StuckOneMore(w: Work, t: Tick, n: nat, id: string)
    requires n < |w.engine.slots| <= |t.readings| && FreshIds(t, w.rows, 0)
    requires LeftStuck(w, Processed(w, t, n), id) && UsedOnly(w, Processed(w, t, n), t, n)
    ensures LeftStuck(w, Processed(w, t, n + 1), id) && UsedOnly(w, Processed(w, t, n + 1), t, n + 1)
  {
    OneRuleLeavesStuck(w, Processed(w, t, n), n, t, id);
  }

  lemma {:induction false} TickLeavesStuck(w: Work, t: Tick, n: nat, id: string)
    requires n <= |w.engine.slots| <= |t.readings| && FreshIds(t, w.rows, 0) && id in w.rows && !Holds(w.engine, id)
    requires w.rows[id].eventEnd.None?
    ensures LeftStuck(w, Processed(w, t, n), id) && UsedOnly(w, Processed(w, t, n), t, n)
  {
    if n > 0 {
      TickLeavesStuck(w, t, n - 1, id);
      StuckOneMore(w, t, n - 1, id);
    }
  }

  lemma OneMoreId(w: Work, k: nat, t: Tick)
    requires k < |w.engine.slots| && k < |t.readings|
    ensures var r := Evaluated(w, k, t);
            r.rows.Keys <= w.rows.Keys + if t.readings[k].Reads? then {t.readings[k].newId} else {}
  {
  }

  lemma StepLeavesStuck(s: System, a: Action, id: string)
    requires Stuck(s, id) && s.rows[id].status != RESOLVED
    ensures Stuck(Take(s, a), id) && Take(s, a).rows[id].status != RESOLVED
  {
    if Enabled(s, a) && a.TickArrives? && a.commits {
      var e := EngineFor(s, a.machineId, a.shiftId, a.rules);
      TickLeavesStuck(Work(e, s.rows), a.tick, |e.slots|, id);
      var s' := Next(s, a);
      forall m | m in s'.contexts ensures !Holds(s'.contexts[m].engine, id) {
        if m == a.machineId {
          var r := AfterTick(s, a.machineId, a.shiftId, a.tick, a.rules);
          assert s'.contexts[m].engine.slots == r.engine.slots;
        }
      }
    } else if Enabled(s, a) && a.Acknowledge? && a.id in s.rows {
      var s' := Next(s, a);
      forall m | m in s'.contexts ensures !Holds(s'.contexts[m].engine, id) {
        assert s'.contexts[m].engine.slots == s.contexts[m].engine.slots;
      }
    }
  }

  // A stuck incident never resolves: not by ticks, nor by acknowledging it.
  lemma {:induction false} StuckForGood(s: System, actions: seq<Action>, id: string)
    requires Stuck(s, id) && s.rows[id].status != RESOLVED
    ensures var s' := Execute(s, actions); Stuck(s', id) && s'.rows[id].status != RESOLVED
    decreases |actions|
  {
    if actions != [] {
      StepLeavesStuck(s, actions[0], id);
      StuckForGood(Take(s, actions[0]), actions[1..], id);
    }
  }

  ghost predicate Streams(actions: seq<Action>) {
    forall i :: 0 <= i < |actions| ==> !actions[i].StopStreaming?
  }

  lemma {:induction false} StuckKeepsCounting(s: System, actions: seq<Action>, id: string)
    requires SystemSound(s) && Stuck(s, id) && id in Tracked(s.rows, s.forgotten) && Streams(actions)
    ensures var s' := Execute(s, actions); id in Tracked(s'.rows, s'.forgotten) && s'.count > 0
    decreases |actions|
  {
    if actions == [] {
      assert Tracked(s.rows, s.forgotten) != {};
    } else {
      var s1 := Take(s, actions[0]);
      assert !actions[0].StopStreaming?;
      StepLeavesStuck(s, actions[0], id);
      if Enabled(s, actions[0]) { StepIsSound(s, actions[0]); }
      assert s1.forgotten == s.forgotten;
      StuckKeepsCounting(s1, actions[1..], id);
    }
  }

  // An incident whose hazard is still on when its machine moves to the next shift stays
  // unresolved through everything that follows, and the clock stays slow until streaming stops:
  // the new engine adopts the id, but none of its rules will ever end the incident.
  lemma HandOverStrands(before: seq<Action>, a: Action, id: string, after: seq<Action>)
    requires var s := Execute(START, before);
             && Enabled(s, a) && a.TickArrives? && a.commits && a.machineId in s.contexts
             && s.contexts[a.machineId].shiftId != a.shiftId
             && id in s.contexts[a.machineId].engine.unresolved && id in s.rows && s.rows[id].eventEnd.None?
    requires Streams(after)
    ensures var s' := Execute(Next(Execute(START, before), a), after);
            && Stuck(s', id) && s'.rows[id].status != RESOLVED && s'.count > 0
  {
    var s := Execute(START, before);
    RunIsSound(START, before);
    HandOverStrandsNow(s, a, id);
    StepIsSound(s, a);
    StuckForGood(Next(s, a), after, id);
    StuckKeepsCounting(Next(s, a), after, id);
  }

  lemma HandOverStrandsNow(s: System, a: Action, id: string)
    requires SystemSound(s) && Enabled(s, a) && a.TickArrives? && a.commits && a.machineId in s.contexts
    requires s.contexts[a.machineId].shiftId != a.shiftId
    requires id in s.contexts[a.machineId].engine.unresolved && id in s.rows && s.rows[id].eventEnd.None?
    ensures var s' := Next(s, a);
            Stuck(s', id) && s'.rows[id].status != RESOLVED && id in Tracked(s'.rows, s'.forgotten)
  {
    var m := a.machineId;
    assert ContextSound(s.contexts[m], m, s.rows, s.forgotten);
    var e := Engine(m, a.rules, {}, [], map[]);
    TickLeavesStuck(Work(e, s.rows), a.tick, |e.slots|, id);
    var s' := Next(s, a);
    forall n | n in s'.contexts ensures !Holds(s'.contexts[n].engine, id) {
      if n != m {
        assert ContextSound(s.contexts[n], n, s.rows, s.forgotten);
        forall k | 0 <= k < |s.contexts[n].engine.slots| ensures s.contexts[n].engine.slots[k].openId != Some(id) {
          assert SlotLinked(s.contexts[n].engine.slots[k], n, s.rows, s.contexts[n].engine.unresolved);
        }
      } else {
        assert s'.contexts[n].engine.slots == Processed(Work(e, s.rows), a.tick, |e.slots|).engine.slots;
      }
    }
  }

  // One tick of a machine with one rule that reads an active condition.
  function HazardTick(m: string, shift: string, slot: Slot, ts: real, id: string): Action {
    TickArrives(m, shift, Tick(ts, "", [Reads(Judged(ts, true, false), id)]), [slot], true)
  }

  function WaitingSlot(name: string, c: Config): Slot { Slot(name, c, Idle, false, false, None) }

  // The condition is there, and again when the opening delay is over.
  function HazardOpens(m: string, shift: string, name: string, c: Config, first: string, second: string): seq<Action> {
    var slot := WaitingSlot(name, c);
    [HazardTick(m, shift, slot, 0.0, first), HazardTick(m, shift, slot, Max(0.0, OpeningDelay(c)), second)]
  }

  // One machine whose only rule waits out its opening delay since time zero.
  ghost function SeenOnce(m: string, shift: string, name: string, c: Config): System {
    var slot := WaitingSlot(name, c).(machine := Pending(0.0));
    System(map[m := Context(shift, Engine(m, [slot], {}, [], map[]))], map[], 0, {})
  }

  lemma FirstSight(m: string, shift: string, name: string, c: Config, id: string)
    ensures var a := HazardTick(m, shift, WaitingSlot(name, c), 0.0, id);
            && Enabled(START, a)
            && Next(START, a) == SeenOnce(m, shift, name, c)
  {
    var a := HazardTick(m, shift, WaitingSlot(name, c), 0.0, id);
    var w := Work(Engine(m, [WaitingSlot(name, c)], {}, [], map[]), map[]);
    assert EngineFor(START, m, shift, a.rules) == w.engine;
    assert Processed(w, a.tick, 1) == Evaluated(Processed(w, a.tick, 0), 0, a.tick);
    var r := AfterTick(START, m, shift, a.tick, a.rules);
    assert r.engine.slots == [WaitingSlot(name, c).(machine := Pending(0.0))] && r.engine.effects == [];
    assert r.engine.unresolved + TakenOver(START, m, shift) == {} && r.rows == map[] && r.engine.windows == map[];
    assert Applied(0, r.engine.effects) == 0;
  }

  lemma SecondSight(s: System, m: string, shift: string, name: string, c: Config, id: string)
    requires s == SeenOnce(m, shift, name, c)
    ensures var a := HazardTick(m, shift, WaitingSlot(name, c), Max(0.0, OpeningDelay(c)), id);
            && Enabled(s, a) && m in Next(s, a).contexts && Next(s, a).contexts[m].shiftId == shift
            && id in Next(s, a).contexts[m].engine.unresolved && id in Next(s, a).rows
            && Next(s, a).rows[id].eventEnd.None?
  {
    var a := HazardTick(m, shift, WaitingSlot(name, c), Max(0.0, OpeningDelay(c)), id);
    var w := Work(s.contexts[m].engine, s.rows);
    assert EngineFor(s, m, shift, a.rules) == w.engine;
    assert Processed(w, a.tick, 1) == Evaluated(Processed(w, a.tick, 0), 0, a.tick);
    assert Step(c, Pending(0.0), Judged(a.tick.ts, true, false)).1.opens;
    OpeningEffects(Read(w, 0, Step(c, Pending(0.0), Judged(a.tick.ts, true, false)).0, false), 0, a.tick, id);
  }

  // Whatever the rule and its delays, a run reaches a hand-over with the hazard on, which strands
  // its incident (HandOverStrands).
  lemma HandOverIsReached(m: string, before: string, after: string, name: string, c: Config, first: string,
                          second: string)
    requires before != after
    ensures var s := Execute(START, HazardOpens(m, before, name, c, first, second));
            var a := TickArrives(m, after, Tick(Max(0.0, OpeningDelay(c)), "", []), [], true);
            && Enabled(s, a) && m in s.contexts && s.contexts[m].shiftId != after
            && second in s.contexts[m].engine.unresolved && second in s.rows && s.rows[second].eventEnd.None?
  {
    var slot := WaitingSlot(name, c);
    var a1 := HazardTick(m, before, slot, 0.0, first);
    var a2 := HazardTick(m, before, slot, Max(0.0, OpeningDelay(c)), second);
    FirstSight(m, before, name, c, first);
    var s1 := Next(START, a1);
    SecondSight(s1, m, before, name, c, second);
    assert [a1, a2][1..] == [a2] && [a2][1..] == [];
    assert Execute(START, [a1, a2]) == Execute(s1, [a2]) == Next(s1, a2);
  }

  // --- Every other incident can still resolve ---------------------------------------

  // A tick of a machine at rest: every rule reads a condition that does not hold.
  predicate AtRest(t: Tick) {
    forall j :: 0 <= j < |t.readings| ==> t.readings[j].Reads? && t.readings[j].input == Judged(t.ts, false, false)
  }

  // Incident ids longer than bound, one for each rule.
  function RestTick(n: nat, ts: real, bound: nat): (t: Tick)
    ensures |t.readings| == n && t.ts == ts && AtRest(t)
  {
    Tick(ts, "", seq(n, (j: nat) => Reads(Judged(ts, false, false), seq(bound + j, i => 'a'))))
  }

  lemma OneRuleLeaves(w: Work, r: Work, k: nat, t: Tick, id: string, j: nat)
    requires k < |r.engine.slots| && j < |r.engine.slots| <= |t.readings| && FreshIds(t, w.rows, 0)
    requires id in w.rows && id in r.rows && OnlySlot(r.engine, k, id) && UsedOnly(w, r, t, j)
    ensures var r' := Evaluated(r, j, t);
            && id in r'.rows && UsedOnly(w, r', t, j + 1) && OnlySlot(r'.engine, k, id)
            && (j != k ==> r'.engine.slots[k] == r.engine.slots[k] && r'.rows[id] == r.rows[id])
  {
    if t.readings[j].Reads? { NextIdIsFresh(w, r, t, j); }
    EvaluationTouchesSlot(r, j, t);
    OneMoreId(r, j, t);
    UsedOneMore(w, r, Evaluated(r, j, t), t, j);
    if j != k { EvaluationLeavesRow(r, j, t, id); }
  }

  // After j rules, the incident of rule k and its slot: as they were, or as rule k left them.
  ghost predicate OthersLeft(w: Work, r: Work, k: nat, t: Tick, id: string, j: nat)
    requires j <= |t.readings| && k < |t.readings|
  {
    && k < |r.engine.slots| == |w.engine.slots| && id in w.rows && id in r.rows
    && UsedOnly(w, r, t, j) && OnlySlot(r.engine, k, id)
    && (j <= k ==> r.engine.slots[k] == w.engine.slots[k] && r.rows[id] == w.rows[id])
  }

  lemma OthersLeaveOneMore(w: Work, k: nat, t: Tick, id: string, n: nat)
    requires k < |w.engine.slots| <= |t.readings| && n < |w.engine.slots| && FreshIds(t, w.rows, 0)
    requires OthersLeft(w, Processed(w, t, n), k, t, id, n)
    ensures OthersLeft(w, Processed(w, t, n + 1), k, t, id, n + 1)
  {
    var r := Processed(w, t, n);
    OneRuleLeaves(w, r, k, t, id, n);
    assert Processed(w, t, n + 1) == Evaluated(r, n, t);
  }

  lemma {:induction false} OthersLeaveBefore(w: Work, k: nat, t: Tick, id: string, j: nat)
    requires k < |w.engine.slots| <= |t.readings| && j <= |w.engine.slots| && FreshIds(t, w.rows, 0)
    requires id in w.rows && OnlySlot(w.engine, k, id)
    ensures OthersLeft(w, Processed(w, t, j), k, t, id, j)
  {
    if j == 0 {
      NothingLeft(w, k, t, id);
    } else {
      OthersLeaveBefore(w, k, t, id, j - 1);
      OthersLeaveOneMore(w, k, t, id, j - 1);
    }
  }

  lemma NothingLeft(w: Work, k: nat, t: Tick, id: string)
    requires k < |w.engine.slots| <= |t.readings| && id in w.rows && OnlySlot(w.engine, k, id)
    ensures OthersLeft(w, w, k, t, id, 0)
  {
  }

  // The incident of rule k and its slot are as r' has them.
  ghost predicate AsIn(r: Work, r': Work, k: nat, id: string) {
    && k < |r.engine.slots| && k < |r'.engine.slots| && id in r.rows && id in r'.rows
    && r.rows[id] == r'.rows[id] && r.engine.slots[k] == r'.engine.slots[k]
  }

  lemma OneMoreStays(w: Work, k: nat, t: Tick, id: string, n: nat, r': Work)
    requires k < n < |w.engine.slots| <= |t.readings| && FreshIds(t, w.rows, 0)
    requires OthersLeft(w, Processed(w, t, n), k, t, id, n) && AsIn(Processed(w, t, n), r', k, id)
    ensures AsIn(Processed(w, t, n + 1), r', k, id)
  {
    var r := Processed(w, t, n);
    OneRuleLeaves(w, r, k, t, id, n);
    assert Processed(w, t, n + 1) == Evaluated(r, n, t);
  }

  lemma {:induction false} OthersLeaveAfter(w: Work, k: nat, t: Tick, id: string, j: nat, r': Work)
    requires k < j <= |w.engine.slots| <= |t.readings| && FreshIds(t, w.rows, 0)
    requires id in w.rows && OnlySlot(w.engine, k, id) && AsIn(Processed(w, t, k + 1), r', k, id)
    ensures AsIn(Processed(w, t, j), r', k, id)
  {
    if j > k + 1 {
      OthersLeaveAfter(w, k, t, id, j - 1, r');
      OthersLeaveBefore(w, k, t, id, j - 1);
      OneMoreStays(w, k, t, id, j - 1, r');
    }
  }

  // Rule k of machine m still runs and holds the incident.
  ghost predicate HeldAt(s: System, m: string, k: nat, id: string) {
    && m in s.contexts && k < |s.contexts[m].engine.slots|
    && s.contexts[m].engine.slots[k].openId == Some(id) && !s.contexts[m].engine.slots[k].degraded
  }

  // A tick on the current shift of machine m.
  function RestAction(s: System, m: string, ts: real, bound: nat): Action
    requires m in s.contexts
  {
    TickArrives(m, s.contexts[m].shiftId, RestTick(|s.contexts[m].engine.slots|, ts, bound), [], true)
  }

  ghost predicate Longer(bound: nat, rows: Rows) { forall id :: id in rows ==> |id| < bound }

  lemma RestActionIsEnabled(s: System, m: string, ts: real, bound: nat)
    requires m in s.contexts && Longer(bound, s.rows)
    ensures var a := RestAction(s, m, ts, bound);
            var e := s.contexts[m].engine;
            && Enabled(s, a) && FreshIds(a.tick, s.rows, 0)
            && Next(s, a).rows == Processed(Work(e, s.rows), a.tick, |e.slots|).rows
            && m in Next(s, a).contexts
            && Next(s, a).contexts[m].engine.slots == Processed(Work(e, s.rows), a.tick, |e.slots|).engine.slots
  {
    var a := RestAction(s, m, ts, bound);
    var e := s.contexts[m].engine;
    assert EngineFor(s, m, a.shiftId, a.rules) == e;
    forall i, j | 0 <= i < j < |a.tick.readings| ensures a.tick.readings[i].newId != a.tick.readings[j].newId {
      assert |a.tick.readings[i].newId| == bound + i && |a.tick.readings[j].newId| == bound + j;
    }
    assert FreshIds(a.tick, s.rows, 0);
    assert AfterTick(s, m, a.shiftId, a.tick, a.rules) == Processed(Work(e, s.rows), a.tick, |e.slots|);
  }

  // What a tick at rest does to the incident of rule k is what rule k does to it.
  lemma RestActionDoes(s: System, m: string, k: nat, id: string, ts: real, bound: nat) returns (w: Work)
    requires SystemSound(s) && HeldAt(s, m, k, id) && Longer(bound, s.rows)
    ensures var a := RestAction(s, m, ts, bound);
            && Enabled(s, a) && m in Next(s, a).contexts && k < |Next(s, a).contexts[m].engine.slots|
            && k < |w.engine.slots| && k < |a.tick.readings| && w.engine.slots[k] == s.contexts[m].engine.slots[k]
            && id in s.rows && id in w.rows && w.rows[id] == s.rows[id]
            && id in Next(s, a).rows && id in Evaluated(w, k, a.tick).rows
            && Next(s, a).rows[id] == Evaluated(w, k, a.tick).rows[id]
            && Next(s, a).contexts[m].engine.slots[k] == Evaluated(w, k, a.tick).engine.slots[k]
  {
    var a := RestAction(s, m, ts, bound);
    var start := Work(s.contexts[m].engine, s.rows);
    HeldIsLinked(s, m, k, id);
    RestActionIsEnabled(s, m, ts, bound);
    OthersLeaveBefore(start, k, a.tick, id, k);
    OthersLeaveBefore(start, k, a.tick, id, k + 1);
    w := Processed(start, a.tick, k);
    assert Processed(start, a.tick, k + 1) == Evaluated(w, k, a.tick);
    OthersLeaveAfter(start, k, a.tick, id, |start.engine.slots|, Evaluated(w, k, a.tick));
  }

  // A quiet reading after the clearing hold ends the incident of a clearing rule.
  lemma QuietReadingCloses(w: Work, k: nat, t: Tick, id: string)
    requires k < |w.engine.slots| && k < |t.readings| && id in w.rows
    requires var s := w.engine.slots[k];
             && s.openId == Some(id) && !s.degraded && s.machine.Clearing?
             && t.readings[k].Reads? && t.readings[k].input == Judged(t.ts, false, false)
             && t.ts >= s.machine.clearingSince + s.config.clearingHold
    ensures var r := Evaluated(w, k, t);
            id in r.rows && r.rows[id].eventEnd.Some? && r.rows[id].operatorId == w.rows[id].operatorId
  {
  }

  // A quiet reading starts the clearing of an active rule.
  lemma QuietReadingClears(w: Work, k: nat, t: Tick, id: string)
    requires k < |w.engine.slots| && k < |t.readings| && id in w.rows
    requires var s := w.engine.slots[k];
             && s.openId == Some(id) && !s.degraded && s.machine.Active?
             && t.readings[k].Reads? && t.readings[k].input == Judged(t.ts, false, false)
    ensures var r := Evaluated(w, k, t);
            && id in r.rows && r.rows[id].operatorId == w.rows[id].operatorId && k < |r.engine.slots|
            && r.engine.slots[k].openId == Some(id) && !r.engine.slots[k].degraded
            && r.engine.slots[k].machine.Clearing?
  {
  }

  lemma HeldIsLinked(s: System, m: string, k: nat, id: string)
    requires SystemSound(s) && HeldAt(s, m, k, id)
    ensures id in s.rows && IsOpen(s.contexts[m].engine.slots[k].machine) && OnlySlot(s.contexts[m].engine, k, id)
  {
    assert ContextSound(s.contexts[m], m, s.rows, s.forgotten);
    assert SlotLinked(s.contexts[m].engine.slots[k], m, s.rows, s.contexts[m].engine.unresolved);
  }

  lemma ClosingTick(s: System, m: string, k: nat, id: string, now: real) returns (a: Action)
    requires SystemSound(s) && HeldAt(s, m, k, id) && s.contexts[m].engine.slots[k].machine.Clearing?
    ensures a.TickArrives? && a.tick.ts >= now && AtRest(a.tick)
    ensures Enabled(s, a) && id in s.rows && id in Next(s, a).rows
    ensures Next(s, a).rows[id].eventEnd.Some? && Next(s, a).rows[id].operatorId == s.rows[id].operatorId
  {
    var slot := s.contexts[m].engine.slots[k];
    var _, bound := NewString(s.rows.Keys);
    var cleared := slot.machine.clearingSince + slot.config.clearingHold;
    var ts := if cleared < now then now else cleared;
    a := RestAction(s, m, ts, bound);
    var w := RestActionDoes(s, m, k, id, ts, bound);
    QuietReadingCloses(w, k, a.tick, id);
  }

  lemma ClearingTick(s: System, m: string, k: nat, id: string, now: real) returns (a: Action)
    requires SystemSound(s) && HeldAt(s, m, k, id) && s.contexts[m].engine.slots[k].machine.Active?
    ensures a.TickArrives? && a.tick.ts == now && AtRest(a.tick)
    ensures Enabled(s, a) && HeldAt(Next(s, a), m, k, id) && Next(s, a).contexts[m].engine.slots[k].machine.Clearing?
  {
    var _, bound := NewString(s.rows.Keys);
    a := RestAction(s, m, now, bound);
    var w := RestActionDoes(s, m, k, id, now, bound);
    QuietReadingClears(w, k, a.tick, id);
  }

  lemma EndedResolves(s: System, id: string, now: real)
    requires id in s.rows && s.rows[id].eventEnd.Some?
    ensures var a := Acknowledge(id, s.rows[id].operatorId, Some(0.0), now);
            id in Take(s, a).rows && Take(s, a).rows[id].status == RESOLVED
  {
  }

  ghost predicate ResolvesAfter(s: System, actions: seq<Action>, id: string) {
    var s' := Execute(s, actions); id in s'.rows && s'.rows[id].status == RESOLVED
  }

  function TimeOf(a: Action, last: real): real {
    match a
    case TickArrives(_, _, t, _, _) => t.ts
    case Acknowledge(_, _, _, now) => now
    case Report(_, _, _, now) => now
    case StopStreaming => last
  }

  // From last on, time does not go back; and every tick is of a machine at rest.
  ghost predicate CalmFrom(last: real, actions: seq<Action>)
    decreases |actions|
  {
    actions == []
    || (&& TimeOf(actions[0], last) >= last && (actions[0].TickArrives? ==> AtRest(actions[0].tick))
        && CalmFrom(TimeOf(actions[0], last), actions[1..]))
  }

  lemma ExecuteCons(s: System, a: Action, rest: seq<Action>, last: real)
    requires TimeOf(a, last) >= last && (a.TickArrives? ==> AtRest(a.tick)) && CalmFrom(TimeOf(a, last), rest)
    ensures Execute(s, [a] + rest) == Execute(Take(s, a), rest) && CalmFrom(last, [a] + rest)
  {
    assert ([a] + rest)[1..] == rest;
  }

  lemma EndedCanResolve(s: System, id: string, now: real) returns (actions: seq<Action>)
    requires id in s.rows && s.rows[id].eventEnd.Some?
    ensures ResolvesAfter(s, actions, id) && CalmFrom(now, actions)
  {
    EndedResolves(s, id, now);
    var a := Acknowledge(id, s.rows[id].operatorId, Some(0.0), now);
    ExecuteCons(s, a, [], now);
    actions := [a] + [];
  }

  lemma ClearingCanResolve(s: System, m: string, k: nat, id: string, now: real) returns (actions: seq<Action>)
    requires SystemSound(s) && HeldAt(s, m, k, id) && s.contexts[m].engine.slots[k].machine.Clearing?
    ensures ResolvesAfter(s, actions, id) && CalmFrom(now, actions)
  {
    var a := ClosingTick(s, m, k, id, now);
    var rest := EndedCanResolve(Next(s, a), id, a.tick.ts);
    ExecuteCons(s, a, rest, now);
    actions := [a] + rest;
  }

  lemma HeldCanResolve(s: System, m: string, k: nat, id: string, now: real) returns (actions: seq<Action>)
    requires SystemSound(s) && HeldAt(s, m, k, id)
    ensures ResolvesAfter(s, actions, id) && CalmFrom(now, actions)
  {
    HeldIsLinked(s, m, k, id);
    if s.contexts[m].engine.slots[k].machine.Clearing? {
      actions := ClearingCanResolve(s, m, k, id, now);
    } else {
      var a := ClearingTick(s, m, k, id, now);
      StepIsSound(s, a);
      var rest := ClearingCanResolve(Next(s, a), m, k, id, now);
      ExecuteCons(s, a, rest, now);
      actions := [a] + rest;
    }
  }

  // Whatever the clock shows, an unresolved engine incident can still be resolved exactly when it
  // has ended or a running rule holds it: then ticks of a machine at rest and an acknowledgement,
  // in time order, resolve it; otherwise no run at all does.
  lemma ResolvableExactly(before: seq<Action>, id: string, now: real)
    requires var s := Execute(START, before); id in s.rows && s.rows[id].fromEngine && s.rows[id].status != RESOLVED
    ensures !Stuck(Execute(START, before), id) ==>
              exists actions :: CalmFrom(now, actions) && ResolvesAfter(Execute(START, before), actions, id)
    ensures Stuck(Execute(START, before), id) ==> forall actions :: !ResolvesAfter(Execute(START, before), actions, id)
  {
    var s := Execute(START, before);
    RunIsSound(START, before);
    if Stuck(s, id) {
      forall actions ensures !ResolvesAfter(s, actions, id) {
        StuckForGood(s, actions, id);
      }
    } else if s.rows[id].eventEnd.Some? {
      var actions := EndedCanResolve(s, id, now);
    } else {
      var m :| m in s.contexts && Holds(s.contexts[m].engine, id);
      var k :| 0 <= k < |s.contexts[m].engine.slots| && s.contexts[m].engine.slots[k].openId == Some(id)
               && !s.contexts[m].engine.slots[k].degraded;
      var actions := HeldCanResolve(s, m, k, id, now);
    }
  }
}
