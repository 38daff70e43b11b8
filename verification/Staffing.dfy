// Who may work what (backend/app/cloud/assignment/validation.py, service.py): what the admin's
// operations keep of qualifications, machine types and maintenance, and why they refuse.
module Staffing {
  import opened Prelude
  import opened TaskService
  import opened Assignment

  predicate Qualified(t: Tables, operatorId: string, machineId: string) {
    machineId in t.machines && (operatorId, t.machines[machineId].machineType) in t.skills
  }

  // The task suits the machine of its shift, starts inside the shift, and carries its operator's skill.
  ghost predicate Suits(t: Tables, task: Task) {
    && task.shiftId in t.shifts
    && var s := t.shifts[task.shiftId];
       && Qualified(t, s.operatorId, s.machineId) && !t.machines[s.machineId].inMaintenance
       && Compatible(task.taskType, t.machines[s.machineId].machineType)
       && task.skill == t.skills[(s.operatorId, t.machines[s.machineId].machineType)]
       && s.start <= task.start < s.end
  }

  ghost predicate Staffed(t: Tables) {
    && (forall a :: a in t.shifts ==>
          && t.shifts[a].start < t.shifts[a].end && t.shifts[a].operatorId in t.operators
          && Qualified(t, t.shifts[a].operatorId, t.shifts[a].machineId)
          && !t.machines[t.shifts[a].machineId].inMaintenance)
    && (forall u :: u in t.tasks ==> Suits(t, t.tasks[u]))
  }

  // The task types by what a machine can do.
  lemma CompatibleByMachine(taskType: string, machineType: string)
    ensures Compatible(taskType, machineType) <==>
              || (machineType in {"excavator", "backhoe_loader"}
                  && taskType in {"excavation", "trenching", "material_loading"})
              || (machineType == "wheel_loader" && taskType == "material_loading")
  {
  }

  // --- What runs keep -------------------------------------------------------------------

  lemma NewShiftKeepsStaffed(t: Tables, newId: string, s: Shift)
    requires Staffed(t) && ShiftRule(t, s).None? && newId !in t.shifts
    ensures Staffed(t.(shifts := t.shifts[newId := s]))
  {
    var t' := t.(shifts := t.shifts[newId := s]);
    forall u | u in t.tasks ensures Suits(t', t.tasks[u]) { assert Suits(t, t.tasks[u]); }
  }

  lemma NewTaskKeepsStaffed(t: Tables, id: string, task: Task)
    requires Staffed(t) && Suits(t, task)
    ensures Staffed(t.(tasks := t.tasks[id := task]))
  {
    var t' := t.(tasks := t.tasks[id := task]);
    forall u | u in t'.tasks ensures Suits(t', t'.tasks[u]) { assert u != id ==> Suits(t, t.tasks[u]); }
  }

  lemma PlacedSuits(t: Tables, id: string, draft: Task, shiftId: string, requestedStart: Option<real>, planned: real)
    requires shiftId in t.shifts && TaskRule(t, draft.taskType, t.shifts[shiftId]).None?
    requires Fitting(t, id, Placed(t, id, draft, shiftId, requestedStart, planned))
    ensures Suits(t, Placed(t, id, draft, shiftId, requestedStart, planned))
  {
  }

  lemma StepKeepsStaffed(t: Tables, op: Op)
    requires Staffed(t) && !op.StatusReport?
    ensures Staffed(Next(t, op))
  {
    if !Refused(t, op) {
      match op
      case CreateShift(newId, s) =>
        if ShiftRule(t, s).Some? { assert Fails(t, op, ShiftRule(t, s).value); }
        if newId !in t.shifts { NewShiftKeepsStaffed(t, newId, s); }
      case CreateTask(newId, taskType, _, shiftId, requestedStart, planned) =>
        AcceptedPlaces(t, op);
        var draft := NewTask(shiftId, taskType);
        PlacedSuits(t, newId, draft, shiftId, requestedStart, planned);
        NewTaskKeepsStaffed(t, newId, Placed(t, newId, draft, shiftId, requestedStart, planned));
      case CancelTask(id) =>
        AcceptedChanges(t, op);
        assert Suits(t, t.tasks[id]);
        NewTaskKeepsStaffed(t, id, t.tasks[id].(status := Cancelled));
      case ReassignTask(id, target, requestedStart, planned) =>
        AcceptedChanges(t, op);
        AcceptedPlaces(t, op);
        var draft := t.tasks[id].(reassigned := true);
        PlacedSuits(t, id, draft, target, requestedStart, planned);
        NewTaskKeepsStaffed(t, id, Placed(t, id, draft, target, requestedStart, planned));
    }
  }

  // After every run of admin operations each shift has a known operator who is qualified for its
  // machine, and each task suits its shift.
  lemma {:induction false} AdminsKeepStaffed(t: Tables, ops: seq<Op>)
    requires Staffed(t) && NoReports(ops)
    ensures Staffed(Execute(t, ops))
    decreases |ops|
  {
    if ops != [] {
      assert !ops[0].StatusReport?;
      StepKeepsStaffed(t, ops[0]);
      AdminsKeepStaffed(Next(t, ops[0]), ops[1..]);
    }
  }

  // --- Why operations are refused -------------------------------------------------------

  // With which error a shift is refused, and when.
  lemma ShiftRefusedExactly(t: Tables, newId: string, s: Shift, e: Error)
    ensures var valid, machine := s.start < s.end, s.machineId in t.machines;
            var known := s.operatorId in t.operators && machine;
            var able := known && Qualified(t, s.operatorId, s.machineId);
            Fails(t, CreateShift(newId, s), e) <==>
              match e
              case InvalidWindow => !valid
              case NotFound(key) =>
                valid && if s.operatorId in t.operators then key == s.machineId && !machine else key == s.operatorId
              case NotQualified => valid && known && !able
              case InMaintenance => valid && able && t.machines[s.machineId].inMaintenance
              case ShiftOverlap(id) =>
                && valid && able && !t.machines[s.machineId].inMaintenance
                && id in t.shifts && (t.shifts[id].operatorId == s.operatorId || t.shifts[id].machineId == s.machineId)
                && s.start < t.shifts[id].end && t.shifts[id].start < s.end
              case _ => false
  {
  }

  // The requested start, or the latest end on the shift, its own start if there is none later.
  ghost predicate StartsAt(t: Tables, id: string, shiftId: string, requestedStart: Option<real>, start: real)
    requires shiftId in t.shifts
  {
    if requestedStart.Some? then start == requestedStart.value else IsDefaultStart(t, id, shiftId, start)
  }

  lemma StartIsUnique(t: Tables, id: string, shiftId: string, requestedStart: Option<real>, start: real)
    requires shiftId in t.shifts && StartsAt(t, id, shiftId, requestedStart, start)
    ensures requestedStart.None? ==> start == DefaultStart(t, id, shiftId)
  {
  }

  // With which error placing a task on a shift is refused, and when.
  lemma PlaceRefusedExactly(t: Tables, id: string, draft: Task, shiftId: string, requestedStart: Option<real>,
                            planned: real, start: real, e: Error)
    requires shiftId in t.shifts && StartsAt(t, id, shiftId, requestedStart, start)
    ensures var s := t.shifts[shiftId];
            var known := s.machineId in t.machines;
            var able := known && Qualified(t, s.operatorId, s.machineId);
            var suited := able && Compatible(draft.taskType, t.machines[s.machineId].machineType);
            var ready := suited && !t.machines[s.machineId].inMaintenance;
            PlaceFails(t, id, draft, shiftId, requestedStart, planned, e) <==>
              match e
              case NotFound(key) => key == s.machineId && !known
              case NotQualified => known && !able
              case Incompatible => able && !suited
              case InMaintenance => suited && !ready
              case OutsideShift => ready && !(s.start <= start < s.end)
              case TaskOverlap(u) =>
                && ready && s.start <= start < s.end && u in t.tasks && u != id
                && t.tasks[u].shiftId == shiftId && t.tasks[u].status != Cancelled
                && start < TaskEnd(t.tasks[u]) && t.tasks[u].start < start + planned
              case _ => false
  {
    StartIsUnique(t, id, shiftId, requestedStart, start);
  }

  // With which error a new task is refused, and when: loading is counted in loads, everything else is
  // measured in cubic metres.
  lemma CreateRefusedExactly(t: Tables, newId: string, taskType: string, unit: string, shiftId: string,
                             requestedStart: Option<real>, planned: real, e: Error)
    ensures var measured := if taskType == "material_loading" then unit == "loads" else unit == "m3";
            Fails(t, CreateTask(newId, taskType, unit, shiftId, requestedStart, planned), e) <==>
              if !measured then e == WrongUnit
              else if shiftId !in t.shifts then e == NotFound(shiftId)
              else PlaceFails(t, newId, NewTask(shiftId, taskType), shiftId, requestedStart, planned, e)
  {
  }

  // With which error a task may not be cancelled or moved, and when.
  lemma ChangeRefusedExactly(tasks: map<string, Task>, id: string, e: Error)
    ensures ChangeRule(tasks, id) == Some(e) <==>
              match e
              case NotFound(key) => key == id && id !in tasks
              case AlreadyCancelled => id in tasks && tasks[id].status == Cancelled
              case AlreadyStarted =>
                && id in tasks && tasks[id].status != Cancelled
                && (tasks[id].started || tasks[id].status in {InProgress, Paused, Blocked, Done})
              case _ => false
  {
  }
}
