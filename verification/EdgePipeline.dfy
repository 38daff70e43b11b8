// The edge pipeline as an object (backend/app/edge/telemetry/pipeline.py): one live engine object
// per machine, one incident table, one clock driver. Each call is one action of AutoSlow.
module EdgePipeline {
  import opened Prelude
  import opened RuleMachine
  import opened SafetyEngine
  import opened AutoSlow

  datatype RouteError = NotFound | Refused(error: AckError)

  // When an acknowledgement is accepted, and what a refused one is told, in the order of the checks.
  predicate AnswersExactly(rows: Rows, id: string, operatorId: string, speed: Option<real>, error: Option<RouteError>) {
    && (error.None? <==> MayAcknowledge(rows, id, operatorId, speed))
    && (error == Some(NotFound) <==> id !in rows)
    && (error == Some(Refused(BelongsToAnother)) <==> id in rows && rows[id].operatorId != operatorId)
    && (error == Some(Refused(NoTelemetry)) <==>
          id in rows && rows[id].operatorId == operatorId && rows[id].status != RESOLVED && speed.None?)
    && (error == Some(Refused(Moving)) <==>
          && id in rows && rows[id].operatorId == operatorId && rows[id].status != RESOLVED
          && speed.Some? && speed.value > 0.0)
  }

  class Pipeline {
    const session: IncidentTable
    const driver: ClockDriver
    var engines: map<string, SafetyEngine>
    var shifts: map<string, string>
    ghost var forgotten: set<string>

    constructor (session: IncidentTable, driver: ClockDriver)
      requires session.rows == map[] && driver.openIncidentCount == 0
      ensures this.session == session && this.driver == driver && Valid() && View() == START
    {
      this.session, this.driver := session, driver;
      engines, shifts := map[], map[];
      forgotten := {};
    }

    ghost predicate Valid()
      reads this, engines.Values
    {
      engines.Keys == shifts.Keys && forall m :: m in engines ==> engines[m].machineId == m && engines[m].effects == []
    }

    ghost function View(): System
      requires Valid()
      reads this, engines.Values, session, driver
    {
      System(map m | m in engines :: Context(shifts[m], engines[m].State()), session.rows, driver.openIncidentCount,
             forgotten)
    }

    // Engines of different machines are different objects.
    lemma Distinct(m: string)
      requires Valid() && m in engines
      ensures forall n :: n in engines && n != m ==> engines[n] != engines[m]
    {
    }

    // The tick on the installed engine of the machine.
    method RunInstalled(machineId: string, t: Tick, commits: bool) returns (sent: seq<Effect>)
      requires Valid() && machineId in engines && |engines[machineId].slots| <= |t.readings|
      modifies session, driver, engines[machineId]
      ensures engines[machineId].effects == []
      ensures !commits ==>
                engines[machineId].State() == old(engines[machineId].State()) && session.rows == old(session.rows)
                           && driver.openIncidentCount == old(driver.openIncidentCount) && sent == []
      ensures commits ==>
                var r := Processed(Work(old(engines[machineId].State()), old(session.rows)), t,
                                   |old(engines[machineId].slots)|);
                && engines[machineId].State() == r.engine.(effects := []) && session.rows == r.rows
                && driver.openIncidentCount == Applied(old(driver.openIncidentCount), r.engine.effects)
                && sent == Messages(r.engine.effects)
      ensures forall n :: n in engines && n != machineId ==> engines[n].State() == old(engines[n].State())
    {
      Distinct(machineId);
      sent := engines[machineId].RunTick(t, session, driver, commits);
    }

    // A tick for the machine's current shift.
    method ProcessCurrent(machineId: string, t: Tick, commits: bool) returns (sent: seq<Effect>)
      requires Valid() && machineId in engines && |engines[machineId].slots| <= |t.readings|
      requires FreshIds(t, session.rows, 0)
      modifies session, driver, engines[machineId]
      ensures Valid() && View() == Next(old(View()), TickArrives(machineId, shifts[machineId], t, [], commits))
      ensures sent == if commits
                      then Messages(AfterTick(old(View()), machineId, shifts[machineId], t, []).engine.effects)
                      else []
    {
      ghost var before := View();
      ghost var r := AfterTick(before, machineId, shifts[machineId], t, []);
      sent := RunInstalled(machineId, t, commits);
      if commits {
        assert r.engine.unresolved + {} == r.engine.unresolved;
        ContextReplaced(before.contexts, machineId, Context(shifts[machineId], r.engine.(effects := [])));
      } else {
        ContextsAre(before.contexts);
      }
    }

    // The incidents the machine's current engine tracks.
    ghost function Outgoing(machineId: string): set<string>
      reads this, engines.Values
    {
      if machineId in engines then engines[machineId].unresolved else {}
    }

    // The new engine takes over the unresolved incidents and is installed.
    method Install(machineId: string, shiftId: string, engine: SafetyEngine)
      requires Valid() && engine !in engines.Values && engine.machineId == machineId
      modifies this`engines, this`shifts, engine`unresolved, engines.Values
      ensures engines == old(engines)[machineId := engine] && shifts == old(shifts)[machineId := shiftId]
      ensures engine.unresolved == old(engine.unresolved) + old(Outgoing(machineId))
      ensures forall n :: n in old(engines) && n != machineId ==>
                engines[n] == old(engines)[n] && engines[n].State() == old(engines[n].State())
    {
      if machineId in engines {
        Distinct(machineId);
        var ids := engines[machineId].ReleaseUnresolved();
        engine.AdoptUnresolved(ids);
      }
      engines, shifts := engines[machineId := engine], shifts[machineId := shiftId];
    }

    // Send the effects of the tick that installed the engine.
    method Flush(machineId: string) returns (sent: seq<Effect>)
      requires machineId in engines && forall n :: n in engines ==> engines[n].machineId == n
      modifies engines[machineId], driver`openIncidentCount
      ensures engines[machineId].State() == old(engines[machineId].State()).(effects := [])
      ensures driver.openIncidentCount == Applied(old(driver.openIncidentCount), old(engines[machineId].effects))
      ensures sent == Messages(old(engines[machineId].effects))
      ensures forall n :: n in engines && n != machineId ==> engines[n].State() == old(engines[n].State())
    {
      assert forall n :: n in engines && n != machineId ==> engines[n] != engines[machineId];
      sent := engines[machineId].FlushEffects(driver);
    }

    lemma ContextsAre(contexts: map<string, Context>)
      requires Valid() && contexts.Keys == engines.Keys
      requires forall n :: n in engines ==> contexts[n] == Context(shifts[n], engines[n].State())
      ensures View().contexts == contexts
    {
    }

    // One engine changed or is new, the others are as before.
    lemma ContextReplaced(contexts: map<string, Context>, m: string, c: Context)
      requires engines.Keys == shifts.Keys == contexts.Keys + {m}
      requires engines[m].machineId == m && engines[m].effects == [] && c == Context(shifts[m], engines[m].State())
      requires forall n :: n in contexts && n != m ==>
                 && contexts[n].engine.machineId == n && contexts[n].engine.effects == []
                 && contexts[n] == Context(shifts[n], engines[n].State())
      ensures Valid() && View().contexts == contexts[m := c]
    {
      forall n | n in engines
        ensures engines[n].machineId == n && engines[n].effects == []
        ensures contexts[m := c][n] == Context(shifts[n], engines[n].State())
      {
        assert n == m || n in contexts;
      }
      ContextsAre(contexts[m := c]);
    }

    // A committed first tick: hand-over, installation, effects.
    method CommitFirst(machineId: string, shiftId: string, engine: SafetyEngine) returns (sent: seq<Effect>)
      requires Valid() && engine !in engines.Values && engine.machineId == machineId
      modifies this`engines, this`shifts, engine, driver`openIncidentCount, engines.Values
      ensures Valid() && engines == old(engines)[machineId := engine]
      ensures View().contexts == old(View().contexts)[machineId := Context(shiftId, old(engine.State()).(
                                   effects := [], unresolved := old(engine.unresolved) + old(Outgoing(machineId))))]
      ensures driver.openIncidentCount == Applied(old(driver.openIncidentCount), old(engine.effects))
      ensures sent == Messages(old(engine.effects))
    {
      ghost var contexts := View().contexts;
      ghost var unresolved := engine.unresolved + Outgoing(machineId);
      ghost var installed := Context(shiftId, engine.State().(effects := [], unresolved := unresolved));
      Install(machineId, shiftId, engine);
      sent := Flush(machineId);
      ContextReplaced(contexts, machineId, installed);
    }

    // The tick on a new engine, before its transaction ends.
    method RunFirst(machineId: string, t: Tick, rules: seq<Slot>) returns (engine: SafetyEngine)
      requires Valid() && |rules| <= |t.readings|
      modifies session
      ensures Valid() && fresh(engine) && engine.machineId == machineId
      ensures Work(engine.State(), session.rows)
              == Processed(Work(Engine(machineId, rules, {}, [], map[]), old(session.rows)), t, |rules|)
      ensures View().contexts == old(View().contexts)
    {
      ghost var contexts := View().contexts;
      engine := new SafetyEngine(machineId, rules);
      engine.ProcessTick(t, session);
      ContextsAre(contexts);
    }

    // The first tick of a shift: a new engine, installed once the tick commits.
    method ProcessFirst(machineId: string, shiftId: string, t: Tick, rules: seq<Slot>, commits: bool)
      returns (sent: seq<Effect>)
      requires Valid() && !(machineId in engines && shifts[machineId] == shiftId)
      requires Enabled(View(), TickArrives(machineId, shiftId, t, rules, commits))
      modifies this, session, driver, engines.Values
      ensures Valid() && fresh(engines.Values - old(engines.Values))
      ensures View() == Next(old(View()), TickArrives(machineId, shiftId, t, rules, commits))
      ensures sent == if commits then Messages(AfterTick(old(View()), machineId, shiftId, t, rules).engine.effects)
                      else []
    {
      ghost var before := View();
      ghost var r := AfterTick(before, machineId, shiftId, t, rules);
      var stored := session.rows;
      var engine := RunFirst(machineId, t, rules);
      assert Work(engine.State(), session.rows) == r;
      if !commits {
        session.rows := stored;
        ContextsAre(before.contexts);
        return [];
      }
      assert Outgoing(machineId) == TakenOver(before, machineId, shiftId);
      sent := CommitFirst(machineId, shiftId, engine);
    }

    // One telemetry tick: one transaction, then the hand-over, then the effects. What the driver
    // and the clients see of a tick that rolls back is nothing.
    method Process(machineId: string, shiftId: string, t: Tick, rules: seq<Slot>, commits: bool)
      returns (sent: seq<Effect>)
      requires Valid() && Enabled(View(), TickArrives(machineId, shiftId, t, rules, commits))
      modifies this, session, driver, engines.Values
      ensures Valid() && fresh(engines.Values - old(engines.Values))
      ensures View() == Next(old(View()), TickArrives(machineId, shiftId, t, rules, commits))
      ensures sent == if commits then Messages(AfterTick(old(View()), machineId, shiftId, t, rules).engine.effects)
                      else []
    {
      if machineId in engines && shifts[machineId] == shiftId {
        sent := ProcessCurrent(machineId, t, commits);
      } else {
        sent := ProcessFirst(machineId, shiftId, t, rules, commits);
      }
    }

    // Streaming stops: the engines are dropped and the driver forgets the open incidents.
    method Stop()
      requires Valid()
      modifies this, driver
      ensures Valid() && View() == Next(old(View()), StopStreaming)
    {
      engines, shifts := map[], map[];
      forgotten := session.rows.Keys;
      driver.ResetIncidents();
    }

    // The installed engine drops the incident.
    method DropIncident(id: string, m: string)
      requires Valid() && m in engines
      modifies driver, engines[m]
      ensures engines[m].effects == []
      ensures engines[m].State() == old(engines[m].State()).(unresolved := old(engines[m].unresolved) - {id})
      ensures driver.openIncidentCount == if id in old(engines[m].unresolved)
                                          then Applied(old(driver.openIncidentCount), [NotifyClosed])
                                          else old(driver.openIncidentCount)
      ensures forall n :: n in engines && n != m ==> engines[n].State() == old(engines[n].State())
    {
      Distinct(m);
      assert [NotifyClosed][..0] == [];
      engines[m].IncidentResolved(id, driver);
    }

    // Tell the installed engine, if it tracks the incident.
    method NotifyEngine(id: string, m: string)
      requires Valid() && id in session.rows && session.rows[id].machineId == m && session.rows[id].status == RESOLVED
      modifies driver, engines.Values
      ensures Valid() && View() == Notified(old(View()), id)
    {
      ghost var before := View();
      if m in engines {
        ghost var tracked := engines[m].unresolved;
        DropIncident(id, m);
        if id !in tracked { assert tracked - {id} == tracked; }
        ContextsAre(Notified(before, id).contexts);
      }
    }

    // The acknowledgement route: look the incident up, store the row, then tell the engine.
    method AcknowledgeIncident(id: string, operatorId: string, speed: Option<real>, now: real)
      returns (error: Option<RouteError>)
      requires Valid()
      modifies session, driver, engines.Values
      ensures Valid() && View() == Next(old(View()), Acknowledge(id, operatorId, speed, now))
      ensures id !in old(session.rows) ==> error == Some(NotFound)
      ensures id in old(session.rows) ==>
                error == match Acknowledged(old(session.rows)[id], speed, operatorId, now)
                         case Ok(_) => None
                         case Err(e) => Some(Refused(e))
      ensures AnswersExactly(old(session.rows), id, operatorId, speed, error)
      ensures error.Some? ==> View() == old(View())
      ensures error.None? ==> AcknowledgedAs(old(session.rows)[id], session.rows[id], now)
    {
      ghost var before := View();
      if id !in session.rows {
        return Some(NotFound);
      }
      var outcome := Acknowledged(session.rows[id], speed, operatorId, now);
      if outcome.Err? {
        return Some(Refused(outcome.error));
      }
      StoreAcknowledged(id, outcome.value);
      error := None;
    }

    method StoreAcknowledged(id: string, i: Incident)
      requires Valid() && id in session.rows && i.machineId == session.rows[id].machineId
      modifies session, driver, engines.Values
      ensures Valid() && session.rows == old(session.rows)[id := i]
      ensures View() == Notified(old(View()).(rows := session.rows), id)
    {
      ghost var before := View();
      session.rows := session.rows[id := i];
      assert View() == before.(rows := session.rows);
      if i.status == RESOLVED {
        NotifyEngine(id, i.machineId);
      }
    }

    // The presenter's speed route. Any reachable state is sound: the clock runs at the chosen
    // speed exactly when no engine incident of this stream is unresolved, and at 1x otherwise.
    method ChooseSpeed(speed: int) returns (effective: int)
      requires Valid() && SystemSound(View())
      modifies driver`selectedSpeed
      ensures Valid() && View() == old(View())
      ensures Tracked(View().rows, forgotten) != {} ==> effective == 1
      ensures Tracked(View().rows, forgotten) == {} ==> effective == if speed < 1 then 1 else speed
    {
      driver.SetSpeed(speed);
      effective := driver.EffectiveSpeed();
    }
  }
}
