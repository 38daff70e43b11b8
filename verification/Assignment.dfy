// Shift and task assignment (backend/app/cloud/assignment/service.py, validation.py). Times are
// minutes; what the ETA model plans for a task is an input.
module Assignment {
  import opened Prelude
  import opened TaskService

  // A booked window, [start, end).
  datatype Slot = Slot(id: string, start: real, end: real)

  datatype Machine = Machine(machineType: string, inMaintenance: bool)

  datatype Shift = Shift(operatorId: string, machineId: string, start: real, end: real)

  datatype Task = Task(
    shiftId: string, taskType: string, start: real, end: Option<real>, status: Status, started: bool, skill: string,
    reassigned: bool, edgeSyncSeq: int)

  // The assignment fields a status report carries back.
  datatype Booking = Booking(shiftId: string, taskType: string, start: real, end: Option<real>, skill: string)

  datatype Tables = Tables(
    operators: set<string>, machines: map<string, Machine>, skills: map<(string, string), string>,
    shifts: map<string, Shift>, tasks: map<string, Task>)

  datatype Error =
    | InvalidWindow | NotFound(key: string) | NotQualified | InMaintenance | ShiftOverlap(id: string)
    | Incompatible | OutsideShift | TaskOverlap(id: string) | WrongUnit | AlreadyCancelled | AlreadyStarted | SameShift

  predicate Overlaps(aStart: real, aEnd: real, bStart: real, bEnd: real) { aStart < bEnd && bStart < aEnd }

  // Two non-empty windows overlap exactly when they share an instant.
  lemma OverlapIsCommonInstant(aStart: real, aEnd: real, bStart: real, bEnd: real)
    requires aStart < aEnd && bStart < bEnd
    ensures Overlaps(aStart, aEnd, bStart, bEnd) <==>
              exists t: real :: Within(aStart, aEnd, t) && Within(bStart, bEnd, t)
  {
    if Overlaps(aStart, aEnd, bStart, bEnd) {
      var t := Max(aStart, bStart);
      assert Within(aStart, aEnd, t) && Within(bStart, bEnd, t);
    }
  }

  predicate Within(start: real, end: real, t: real) { start <= t < end }

  predicate Compatible(taskType: string, machineType: string) {
    match taskType
    case "material_loading" => machineType in {"excavator", "wheel_loader", "backhoe_loader"}
    case "excavation" => machineType in {"excavator", "backhoe_loader"}
    case "trenching" => machineType in {"excavator", "backhoe_loader"}
    case _ => false
  }

  function UnitFor(taskType: string): string { if taskType == "material_loading" then "loads" else "m3" }

  function TaskEnd(t: Task): real { if t.end.Some? then t.end.value else t.start }

  function TaskSlot(id: string, t: Task): Slot { Slot(id, t.start, TaskEnd(t)) }

  // --- What the admin's operations keep -----------------------------------------------

  predicate Shares(a: Shift, b: Shift) { a.operatorId == b.operatorId || a.machineId == b.machineId }

  // The shifts of an operator, and those of a machine, are pairwise disjoint.
  ghost predicate ShiftsDisjoint(shifts: map<string, Shift>) {
    forall a, b :: a in shifts && b in shifts && a != b && Shares(shifts[a], shifts[b]) ==>
      !Overlaps(shifts[a].start, shifts[a].end, shifts[b].start, shifts[b].end)
  }

  // A task that is not cancelled starts inside its shift.
  ghost predicate TasksInside(shifts: map<string, Shift>, tasks: map<string, Task>) {
    forall t :: t in tasks && tasks[t].status != Cancelled ==>
      tasks[t].shiftId in shifts && Within(shifts[tasks[t].shiftId].start, shifts[tasks[t].shiftId].end, tasks[t].start)
  }

  // The tasks of a shift that are not cancelled are pairwise disjoint.
  ghost predicate TasksDisjoint(tasks: map<string, Task>) {
    forall t, u :: t in tasks && u in tasks && t != u && BothPlanned(tasks[t], tasks[u]) ==>
      !Overlaps(tasks[t].start, TaskEnd(tasks[t]), tasks[u].start, TaskEnd(tasks[u]))
  }

  predicate BothPlanned(t: Task, u: Task) { t.shiftId == u.shiftId && t.status != Cancelled && u.status != Cancelled }

  ghost predicate WindowsValid(shifts: map<string, Shift>) {
    forall s :: s in shifts ==> shifts[s].start < shifts[s].end
  }

  ghost predicate PlanSound(t: Tables) {
    WindowsValid(t.shifts) && ShiftsDisjoint(t.shifts) && TasksInside(t.shifts, t.tasks) && TasksDisjoint(t.tasks)
  }

  // No booked window of the list overlaps [start, end).
  predicate Clear(start: real, end: real, slots: seq<Slot>) {
    forall i :: 0 <= i < |slots| ==> !Overlaps(start, end, slots[i].start, slots[i].end)
  }

  // --- Validation rules ---------------------------------------------------------------

  // The first slot that overlaps the window.
  method FirstOverlap(start: real, end: real, slots: seq<Slot>) returns (found: Option<Slot>)
    ensures found.None? <==> Clear(start, end, slots)
    ensures found.Some? ==>
              exists k :: 0 <= k < |slots| && slots[k] == found.value
                            && Overlaps(start, end, slots[k].start, slots[k].end)
                     && Clear(start, end, slots[..k])
  {
    for k := 0 to |slots|
      invariant Clear(start, end, slots[..k])
    {
      if Overlaps(start, end, slots[k].start, slots[k].end) { return Some(slots[k]); }
    }
    assert slots[..|slots|] == slots;
    found := None;
  }

  // Default start: right after the last planned task, or at shift start.
  method NextFreeStart(shift: Shift, others: seq<Slot>) returns (start: real)
    ensures start >= shift.start && forall i :: 0 <= i < |others| ==> start >= others[i].end
    ensures start == shift.start || exists i :: 0 <= i < |others| && start == others[i].end
  {
    start := shift.start;
    for i := 0 to |others|
      invariant start >= shift.start && forall k :: 0 <= k < i ==> start >= others[k].end
      invariant start == shift.start || exists k :: 0 <= k < i && start == others[k].end
    {
      if others[i].end > start { start := others[i].end; }
    }
  }

  // --- Queries --------------------------------------------------------------------------

  // The rows of a query, in some order.
  ghost predicate ShiftRows(shifts: map<string, Shift>, slots: seq<Slot>, operatorId: Option<string>,
                            machineId: Option<string>, start: real, end: real) {
    && (forall i :: 0 <= i < |slots| ==>
          slots[i].id in shifts && Matches(shifts[slots[i].id], operatorId, machineId)
          && Overlaps(start, end, slots[i].start, slots[i].end)
          && slots[i].start == shifts[slots[i].id].start && slots[i].end == shifts[slots[i].id].end)
    && (forall s :: s in shifts && Matches(shifts[s], operatorId, machineId)
                    && Overlaps(start, end, shifts[s].start, shifts[s].end) ==>
          Slot(s, shifts[s].start, shifts[s].end) in slots)
  }

  predicate Matches(s: Shift, operatorId: Option<string>, machineId: Option<string>) {
    (operatorId.Some? && s.operatorId == operatorId.value) || (machineId.Some? && s.machineId == machineId.value)
  }

  method ShiftSlots(shifts: map<string, Shift>, operatorId: Option<string>, machineId: Option<string>,
                    start: real, end: real)
    returns (slots: seq<Slot>)
    ensures ShiftRows(shifts, slots, operatorId, machineId, start, end)
  {
    slots := [];
    var todo := shifts.Keys;
    while todo != {}
      invariant todo <= shifts.Keys
      invariant ShiftRows(shifts - todo, slots, operatorId, machineId, start, end)
      decreases |todo|
    {
      var s :| s in todo;
      ghost var before := slots;
      if Matches(shifts[s], operatorId, machineId) && shifts[s].start < end && shifts[s].end > start {
        slots := slots + [Slot(s, shifts[s].start, shifts[s].end)];
        assert slots[|before|] == Slot(s, shifts[s].start, shifts[s].end);
      }
      ghost var rows, seen := shifts - (todo - {s}), shifts - todo;
      forall x | x in rows && Matches(rows[x], operatorId, machineId)
                 && Overlaps(start, end, rows[x].start, rows[x].end)
        ensures Slot(x, rows[x].start, rows[x].end) in slots
      {
        if x != s { assert x in seen && Slot(x, seen[x].start, seen[x].end) in before; }
      }
      todo := todo - {s};
    }
    assert shifts - todo == shifts;
  }

  ghost predicate TaskRows(tasks: map<string, Task>, slots: seq<Slot>, shiftId: string, exclude: string) {
    && (forall i :: 0 <= i < |slots| ==>
          slots[i].id in tasks && IsActive(tasks[slots[i].id], shiftId) && slots[i].id != exclude
          && slots[i] == TaskSlot(slots[i].id, tasks[slots[i].id]))
    && (forall t :: t in tasks && IsActive(tasks[t], shiftId) && t != exclude ==> TaskSlot(t, tasks[t]) in slots)
  }

  predicate IsActive(t: Task, shiftId: string) { t.shiftId == shiftId && t.status != Cancelled }

  method ActiveTasks(tasks: map<string, Task>, shiftId: string, exclude: string) returns (slots: seq<Slot>)
    ensures TaskRows(tasks, slots, shiftId, exclude)
  {
    slots := [];
    var todo := tasks.Keys;
    while todo != {}
      invariant todo <= tasks.Keys
      invariant TaskRows(tasks - todo, slots, shiftId, exclude)
      decreases |todo|
    {
      var t :| t in todo;
      ghost var before := slots;
      if IsActive(tasks[t], shiftId) && t != exclude {
        slots := slots + [TaskSlot(t, tasks[t])];
        assert slots[|before|] == TaskSlot(t, tasks[t]);
      }
      ghost var rows, seen := tasks - (todo - {t}), tasks - todo;
      forall x | x in rows && IsActive(rows[x], shiftId) && x != exclude ensures TaskSlot(x, rows[x]) in slots {
        if x != t { assert x in seen && TaskSlot(x, seen[x]) in before; }
      }
      todo := todo - {t};
    }
    assert tasks - todo == tasks;
  }

  // --- Each accepted operation keeps the plan sound -------------------------------------

  lemma ShiftFits(shifts: map<string, Shift>, operators: seq<Slot>, machines: seq<Slot>, s: Shift)
    requires ShiftRows(shifts, operators, Some(s.operatorId), None, s.start, s.end)
    requires ShiftRows(shifts, machines, None, Some(s.machineId), s.start, s.end)
    requires Clear(s.start, s.end, operators) && Clear(s.start, s.end, machines)
    ensures forall a :: a in shifts && Shares(shifts[a], s) ==>
              !Overlaps(s.start, s.end, shifts[a].start, shifts[a].end)
  {
  }

  // --- The admin operations -------------------------------------------------------------

  // The first rule a new shift breaks, overlaps aside, in the order they are checked.
  function ShiftRule(t: Tables, s: Shift): Option<Error> {
    if s.end <= s.start then Some(InvalidWindow)
    else if s.operatorId !in t.operators then Some(NotFound(s.operatorId))
    else if s.machineId !in t.machines then Some(NotFound(s.machineId))
    else if (s.operatorId, t.machines[s.machineId].machineType) !in t.skills then Some(NotQualified)
    else if t.machines[s.machineId].inMaintenance then Some(InMaintenance)
    else None
  }

  // The first rule a task breaks on a shift, its times aside.
  function TaskRule(t: Tables, taskType: string, shift: Shift): Option<Error> {
    if shift.machineId !in t.machines then Some(NotFound(shift.machineId))
    else
      var m := t.machines[shift.machineId];
      if (shift.operatorId, m.machineType) !in t.skills then Some(NotQualified)
      else if !Compatible(taskType, m.machineType) then Some(Incompatible)
      else if m.inMaintenance then Some(InMaintenance)
      else None
  }

  // The operator and the machine are free in the shift's window.
  ghost predicate BothFree(t: Tables, s: Shift) {
    forall a :: a in t.shifts && Shares(t.shifts[a], s) ==>
      !Overlaps(s.start, s.end, t.shifts[a].start, t.shifts[a].end)
  }

  // Nothing planned on the task's shift, the task itself aside, overlaps it.
  ghost predicate TaskFits(t: Tables, id: string, task: Task) {
    forall u :: u in t.tasks && u != id && IsActive(t.tasks[u], task.shiftId) ==>
      !Overlaps(task.start, TaskEnd(task), t.tasks[u].start, TaskEnd(t.tasks[u]))
  }

  // Every other task planned on the shift ends before the shift does.
  ghost predicate RoomLeft(t: Tables, id: string, shiftId: string)
    requires shiftId in t.shifts
  {
    forall u :: u in t.tasks && u != id && IsActive(t.tasks[u], shiftId) ==> TaskEnd(t.tasks[u]) < t.shifts[shiftId].end
  }

  // Exactly when a task may go on a shift, at the requested start or at the default one.
  ghost predicate Placeable(t: Tables, id: string, draft: Task, shiftId: string, requestedStart: Option<real>,
                            planned: real) {
    && shiftId in t.shifts && TaskRule(t, draft.taskType, t.shifts[shiftId]).None?
    && if requestedStart.Some? then
         Within(t.shifts[shiftId].start, t.shifts[shiftId].end, requestedStart.value)
         && TaskFits(t, id, draft.(shiftId := shiftId, start := requestedStart.value,
                                  end := Some(requestedStart.value + planned)))
       else t.shifts[shiftId].start < t.shifts[shiftId].end && RoomLeft(t, id, shiftId)
  }

  lemma RowsAreFree(t: Tables, operators: seq<Slot>, machines: seq<Slot>, s: Shift)
    requires ShiftRows(t.shifts, operators, Some(s.operatorId), None, s.start, s.end)
    requires ShiftRows(t.shifts, machines, None, Some(s.machineId), s.start, s.end)
    ensures BothFree(t, s) <==> Clear(s.start, s.end, operators) && Clear(s.start, s.end, machines)
  {
    if Clear(s.start, s.end, operators) && Clear(s.start, s.end, machines) {
      ShiftFits(t.shifts, operators, machines, s);
    }
  }

  lemma RowsFit(t: Tables, id: string, task: Task, others: seq<Slot>)
    requires TaskRows(t.tasks, others, task.shiftId, id)
    ensures TaskFits(t, id, task) <==> Clear(task.start, TaskEnd(task), others)
  {
    if TaskFits(t, id, task) {
      forall i | 0 <= i < |others| ensures !Overlaps(task.start, TaskEnd(task), others[i].start, others[i].end) {
        assert others[i] == TaskSlot(others[i].id, t.tasks[others[i].id]);
      }
    }
    if Clear(task.start, TaskEnd(task), others) {
      forall u | u in t.tasks && u != id && IsActive(t.tasks[u], task.shiftId)
        ensures !Overlaps(task.start, TaskEnd(task), t.tasks[u].start, TaskEnd(t.tasks[u]))
      {
        assert TaskSlot(u, t.tasks[u]) in others;
      }
    }
  }

  function NewTask(shiftId: string, taskType: string): Task {
    Task(shiftId, taskType, 0.0, None, Assigned, false, "", false, 0)
  }

  // --- The operations as transactions ---------------------------------------------------

  // Ids of created rows are fresh; planned: minutes the ETA model gives the task; number: the
  // sequence of an edge report.
  datatype Op =
    | CreateShift(newId: string, shift: Shift)
    | CreateTask(newId: string, taskType: string, unit: string, shiftId: string, requestedStart: Option<real>,
                 planned: real)
    | CancelTask(id: string)
    | ReassignTask(id: string, target: string, requestedStart: Option<real>, planned: real)
    | StatusReport(id: string, status: Status, started: bool, booking: Booking, number: int)

  // The latest end of the other tasks planned on the shift, or the shift's start.
  ghost predicate IsDefaultStart(t: Tables, id: string, shiftId: string, start: real)
    requires shiftId in t.shifts
  {
    && start >= t.shifts[shiftId].start
    && (forall u :: u in t.tasks && u != id && IsActive(t.tasks[u], shiftId) ==> start >= TaskEnd(t.tasks[u]))
    && (start == t.shifts[shiftId].start
        || exists u :: u in t.tasks && u != id && IsActive(t.tasks[u], shiftId) && start == TaskEnd(t.tasks[u]))
  }

  lemma {:induction false} SomeDefaultStart(t: Tables, id: string, shiftId: string, todo: set<string>)
    returns (start: real)
    requires shiftId in t.shifts && todo <= t.tasks.Keys
    ensures start >= t.shifts[shiftId].start
    ensures forall u :: u in todo && u != id && IsActive(t.tasks[u], shiftId) ==> start >= TaskEnd(t.tasks[u])
    ensures start == t.shifts[shiftId].start
            || exists u :: u in todo && u != id && IsActive(t.tasks[u], shiftId) && start == TaskEnd(t.tasks[u])
    decreases todo
  {
    if todo == {} {
      start := t.shifts[shiftId].start;
    } else {
      var u :| u in todo;
      start := SomeDefaultStart(t, id, shiftId, todo - {u});
      if u != id && IsActive(t.tasks[u], shiftId) && TaskEnd(t.tasks[u]) > start { start := TaskEnd(t.tasks[u]); }
    }
  }

  lemma DefaultStartExists(t: Tables, id: string, shiftId: string)
    requires shiftId in t.shifts
    ensures exists start :: IsDefaultStart(t, id, shiftId, start)
  {
    var start := SomeDefaultStart(t, id, shiftId, t.tasks.Keys);
    assert IsDefaultStart(t, id, shiftId, start);
  }

  ghost function DefaultStart(t: Tables, id: string, shiftId: string): (start: real)
    requires shiftId in t.shifts
    ensures IsDefaultStart(t, id, shiftId, start)
  {
    DefaultStartExists(t, id, shiftId);
    var start :| IsDefaultStart(t, id, shiftId, start);
    start
  }

  ghost function Placed(t: Tables, id: string, draft: Task, shiftId: string, requestedStart: Option<real>,
                        planned: real): Task
    requires shiftId in t.shifts && TaskRule(t, draft.taskType, t.shifts[shiftId]).None?
  {
    var shift := t.shifts[shiftId];
    var start := if requestedStart.Some? then requestedStart.value else DefaultStart(t, id, shiftId);
    draft.(shiftId := shiftId, start := start, end := Some(start + planned),
           skill := t.skills[(shift.operatorId, t.machines[shift.machineId].machineType)])
  }

  // The error of placing a task, if it is refused: the first broken rule; of several overlapping
  // tasks any one may be named.
  ghost predicate PlaceFails(t: Tables, id: string, draft: Task, shiftId: string, requestedStart: Option<real>,
                             planned: real, e: Error)
    requires shiftId in t.shifts
  {
    var shift := t.shifts[shiftId];
    if TaskRule(t, draft.taskType, shift).Some? then e == TaskRule(t, draft.taskType, shift).value
    else
      var task := Placed(t, id, draft, shiftId, requestedStart, planned);
      if !Within(shift.start, shift.end, task.start) then e == OutsideShift else Clashes(t, id, task, e)
  }

  predicate Clashes(t: Tables, id: string, task: Task, e: Error) {
    && e.TaskOverlap? && e.id in t.tasks && e.id != id && IsActive(t.tasks[e.id], task.shiftId)
    && Overlaps(task.start, TaskEnd(task), t.tasks[e.id].start, TaskEnd(t.tasks[e.id]))
  }

  // Only a task that has not started can be cancelled or moved.
  function ChangeRule(tasks: map<string, Task>, id: string): Option<Error> {
    if id !in tasks then Some(NotFound(id))
    else if tasks[id].status == Cancelled then Some(AlreadyCancelled)
    else if tasks[id].started || tasks[id].status != Assigned then Some(AlreadyStarted)
    else None
  }

  // The errors an operation may be refused with.
  ghost predicate Fails(t: Tables, op: Op, e: Error) {
    match op
    case CreateShift(_, s) =>
      if ShiftRule(t, s).Some? then e == ShiftRule(t, s).value
      else e.ShiftOverlap? && e.id in t.shifts && Shares(t.shifts[e.id], s)
           && Overlaps(s.start, s.end, t.shifts[e.id].start, t.shifts[e.id].end)
    case CreateTask(newId, taskType, unit, shiftId, requestedStart, planned) =>
      if unit != UnitFor(taskType) then e == WrongUnit
      else if shiftId !in t.shifts then e == NotFound(shiftId)
      else PlaceFails(t, newId, NewTask(shiftId, taskType), shiftId, requestedStart, planned, e)
    case CancelTask(id) => ChangeRule(t.tasks, id) == Some(e)
    case ReassignTask(id, target, requestedStart, planned) =>
      if ChangeRule(t.tasks, id).Some? then e == ChangeRule(t.tasks, id).value
      else if t.tasks[id].shiftId == target then e == SameShift
      else if target !in t.shifts then e == NotFound(target)
      else PlaceFails(t, id, t.tasks[id].(reassigned := true), target, requestedStart, planned, e)
    case StatusReport(_, _, _, _, _) => false
  }

  ghost predicate Refused(t: Tables, op: Op) { exists e :: Fails(t, op, e) }

  // The task after a newer report: a start the cloud did not plan for rolls its assignment back.
  function Reported(task: Task, status: Status, started: bool, b: Booking, number: int): Task {
    if number <= task.edgeSyncSeq then task
    else
      var kept := if started && (task.status == Cancelled || task.shiftId != b.shiftId)
                  then task.(shiftId := b.shiftId, taskType := b.taskType, start := b.start, end := b.end,
                             skill := b.skill)
                  else task;
      kept.(status := status, started := started, edgeSyncSeq := number)
  }

  // One transaction; one that is refused, or whose id is not fresh, changes nothing.
  ghost function Next(t: Tables, op: Op): Tables {
    if Refused(t, op) then t
    else
      match op
      case CreateShift(newId, s) => if newId in t.shifts then t else t.(shifts := t.shifts[newId := s])
      case CreateTask(newId, taskType, _, shiftId, requestedStart, planned) =>
        AcceptedPlaces(t, op);
        if newId in t.tasks then t
        else t.(tasks := t.tasks[newId := Placed(t, newId, NewTask(shiftId, taskType), shiftId, requestedStart,
                                                 planned)])
      case CancelTask(id) =>
        AcceptedChanges(t, op);
        t.(tasks := t.tasks[id := t.tasks[id].(status := Cancelled)])
      case ReassignTask(id, target, requestedStart, planned) =>
        AcceptedChanges(t, op);
        AcceptedPlaces(t, op);
        t.(tasks := t.tasks[id := Placed(t, id, t.tasks[id].(reassigned := true), target, requestedStart, planned)])
      case StatusReport(id, status, started, booking, number) =>
        if id !in t.tasks then t
        else t.(tasks := t.tasks[id := Reported(t.tasks[id], status, started, booking, number)])
  }

  lemma AcceptedChanges(t: Tables, op: Op)
    requires !Refused(t, op) && (op.CancelTask? || op.ReassignTask?)
    ensures ChangeRule(t.tasks, op.id).None?
  {
    if ChangeRule(t.tasks, op.id).Some? { assert Fails(t, op, ChangeRule(t.tasks, op.id).value); }
  }

  lemma AcceptedPlaces(t: Tables, op: Op)
    requires !Refused(t, op) && (op.CreateTask? || op.ReassignTask?)
    ensures op.ReassignTask? ==> ChangeRule(t.tasks, op.id).None? && op.target != t.tasks[op.id].shiftId
    ensures var shiftId := if op.CreateTask? then op.shiftId else op.target;
            var id := if op.CreateTask? then op.newId else op.id;
            var draft := if op.CreateTask? then NewTask(op.shiftId, op.taskType)
                         else t.tasks[op.id].(reassigned := true);
            && shiftId in t.shifts && TaskRule(t, draft.taskType, t.shifts[shiftId]).None?
            && Fitting(t, id, Placed(t, id, draft, shiftId, op.requestedStart, op.planned))
  {
    if op.CreateTask? {
      assert !Fails(t, op, WrongUnit) && !Fails(t, op, NotFound(op.shiftId));
      forall e
        ensures !PlaceFails(t, op.newId, NewTask(op.shiftId, op.taskType), op.shiftId, op.requestedStart, op.planned, e)
      {
        assert !Fails(t, op, e);
      }
      NothingFails(t, op.newId, NewTask(op.shiftId, op.taskType), op.shiftId, op.requestedStart, op.planned);
    } else {
      AcceptedChanges(t, op);
      assert !Fails(t, op, SameShift) && !Fails(t, op, NotFound(op.target));
      forall e
        ensures !PlaceFails(t, op.id, t.tasks[op.id].(reassigned := true), op.target, op.requestedStart, op.planned, e)
      {
        assert !Fails(t, op, e);
      }
      NothingFails(t, op.id, t.tasks[op.id].(reassigned := true), op.target, op.requestedStart, op.planned);
    }
  }

  // The task lies inside a known shift and overlaps nothing else planned there.
  ghost predicate Fitting(t: Tables, id: string, task: Task) {
    && task.shiftId in t.shifts && Within(t.shifts[task.shiftId].start, t.shifts[task.shiftId].end, task.start)
    && TaskFits(t, id, task)
  }

  lemma NothingFails(t: Tables, id: string, draft: Task, shiftId: string, requestedStart: Option<real>, planned: real)
    requires shiftId in t.shifts && forall e :: !PlaceFails(t, id, draft, shiftId, requestedStart, planned, e)
    ensures TaskRule(t, draft.taskType, t.shifts[shiftId]).None?
    ensures Fitting(t, id, Placed(t, id, draft, shiftId, requestedStart, planned))
  {
    var shift := t.shifts[shiftId];
    if TaskRule(t, draft.taskType, shift).Some? {
      assert PlaceFails(t, id, draft, shiftId, requestedStart, planned, TaskRule(t, draft.taskType, shift).value);
    }
    assert !PlaceFails(t, id, draft, shiftId, requestedStart, planned, OutsideShift);
    var task := Placed(t, id, draft, shiftId, requestedStart, planned);
    forall u | u in t.tasks && u != id && IsActive(t.tasks[u], task.shiftId)
      ensures !Overlaps(task.start, TaskEnd(task), t.tasks[u].start, TaskEnd(t.tasks[u]))
    {
      assert !PlaceFails(t, id, draft, shiftId, requestedStart, planned, TaskOverlap(u));
    }
  }

  // --- Every run of operations ----------------------------------------------------------

  // A planned task keeps the plan sound exactly when it lies inside its shift and fits.
  lemma PlacedTaskKeepsPlanExactly(t: Tables, id: string, task: Task)
    requires PlanSound(t) && task.status != Cancelled
    ensures PlanSound(t.(tasks := t.tasks[id := task])) <==> Fitting(t, id, task)
  {
    var after := t.tasks[id := task];
    if PlanSound(t.(tasks := after)) {
      assert after[id] == task;
      forall u | u in t.tasks && u != id && IsActive(t.tasks[u], task.shiftId)
        ensures !Overlaps(task.start, TaskEnd(task), t.tasks[u].start, TaskEnd(t.tasks[u]))
      {
        assert after[u] == t.tasks[u] && BothPlanned(after[id], after[u]);
      }
    }
  }

  lemma NewShiftKeepsPlan(t: Tables, id: string, s: Shift)
    requires PlanSound(t) && id !in t.shifts
    ensures PlanSound(t.(shifts := t.shifts[id := s])) <==> s.start < s.end && BothFree(t, s)
  {
    var after := t.shifts[id := s];
    if PlanSound(t.(shifts := after)) {
      assert after[id] == s;
      forall a | a in t.shifts && Shares(t.shifts[a], s)
        ensures !Overlaps(s.start, s.end, t.shifts[a].start, t.shifts[a].end)
      {
        assert after[a] == t.shifts[a] && Shares(after[a], after[id]);
      }
    }
  }

  lemma CancelKeepsPlan(t: Tables, id: string)
    requires PlanSound(t) && id in t.tasks
    ensures PlanSound(t.(tasks := t.tasks[id := t.tasks[id].(status := Cancelled)]))
  {
    var after := t.tasks[id := t.tasks[id].(status := Cancelled)];
    forall u, v | u in after && v in after && u != v && BothPlanned(after[u], after[v])
      ensures !Overlaps(after[u].start, TaskEnd(after[u]), after[v].start, TaskEnd(after[v]))
    {
      assert BothPlanned(t.tasks[u], t.tasks[v]);
    }
  }

  // A report that puts a cancelled or moved task back into the plan where it no longer fits.
  ghost predicate Displaces(t: Tables, op: Op) {
    && op.StatusReport? && op.id in t.tasks
    && var task := Reported(t.tasks[op.id], op.status, op.started, op.booking, op.number);
       task.status != Cancelled && !Fitting(t, op.id, task)
  }

  // A task that stays planned where it is fits; so only a cancelled or moved one can displace.
  lemma PlannedTaskFits(t: Tables, id: string)
    requires PlanSound(t) && id in t.tasks && t.tasks[id].status != Cancelled
    ensures Fitting(t, id, t.tasks[id])
  {
    forall u | u in t.tasks && u != id && IsActive(t.tasks[u], t.tasks[id].shiftId)
      ensures !Overlaps(t.tasks[id].start, TaskEnd(t.tasks[id]), t.tasks[u].start, TaskEnd(t.tasks[u]))
    {
      assert BothPlanned(t.tasks[id], t.tasks[u]);
    }
  }

  lemma DisplacedWasAway(t: Tables, op: Op)
    requires PlanSound(t) && Displaces(t, op)
    ensures t.tasks[op.id].status == Cancelled || (op.started && t.tasks[op.id].shiftId != op.booking.shiftId)
  {
    if t.tasks[op.id].status != Cancelled { PlannedTaskFits(t, op.id); }
  }

  lemma ReportKeepsPlanExactly(t: Tables, op: Op)
    requires PlanSound(t) && op.StatusReport?
    ensures PlanSound(Next(t, op)) <==> !Displaces(t, op)
  {
    if op.id in t.tasks {
      var task := Reported(t.tasks[op.id], op.status, op.started, op.booking, op.number);
      if task.status != Cancelled {
        PlacedTaskKeepsPlanExactly(t, op.id, task);
      } else {
        CancelKeepsPlan(t, op.id);
        UnplannedTaskIsFree(t.(tasks := t.tasks[op.id := t.tasks[op.id].(status := Cancelled)]), op.id, task);
        assert t.tasks[op.id := t.tasks[op.id].(status := Cancelled)][op.id := task] == t.tasks[op.id := task];
      }
    }
  }

  lemma UnplannedTaskIsFree(t: Tables, id: string, task: Task)
    requires PlanSound(t) && id in t.tasks && t.tasks[id].status == Cancelled == task.status
    ensures PlanSound(t.(tasks := t.tasks[id := task]))
  {
    var after := t.tasks[id := task];
    forall u, v | u in after && v in after && u != v && BothPlanned(after[u], after[v])
      ensures !Overlaps(after[u].start, TaskEnd(after[u]), after[v].start, TaskEnd(after[v]))
    {
      assert BothPlanned(t.tasks[u], t.tasks[v]);
    }
  }

  // Every operation of the admins keeps the plan sound, and a status report does exactly when it
  // does not put a cancelled or moved task back where it no longer fits.
  lemma StepKeepsPlanExactly(t: Tables, op: Op)
    requires PlanSound(t)
    ensures PlanSound(Next(t, op)) <==> !Displaces(t, op)
    ensures Displaces(t, op) ==>
              t.tasks[op.id].status == Cancelled || (op.started && t.tasks[op.id].shiftId != op.booking.shiftId)
  {
    if Displaces(t, op) { DisplacedWasAway(t, op); }
    if op.StatusReport? {
      ReportKeepsPlanExactly(t, op);
    } else if !Refused(t, op) {
      match op
      case CreateShift(newId, s) =>
        AcceptedShiftIsFree(t, op);
        if newId !in t.shifts { NewShiftKeepsPlan(t, newId, s); }
      case CreateTask(newId, taskType, _, shiftId, requestedStart, planned) =>
        AcceptedPlaces(t, op);
        PlacedTaskKeepsPlanExactly(t, newId,
                                   Placed(t, newId, NewTask(shiftId, taskType), shiftId, requestedStart, planned));
      case CancelTask(id) =>
        AcceptedChanges(t, op);
        CancelKeepsPlan(t, id);
      case ReassignTask(id, target, requestedStart, planned) =>
        AcceptedPlaces(t, op);
        PlacedTaskKeepsPlanExactly(t, id,
                                   Placed(t, id, t.tasks[id].(reassigned := true), target, requestedStart, planned));
    }
  }

  lemma AcceptedShiftIsFree(t: Tables, op: Op)
    requires op.CreateShift? && !Refused(t, op)
    ensures op.shift.start < op.shift.end && BothFree(t, op.shift)
  {
    var s := op.shift;
    if ShiftRule(t, s).Some? { assert Fails(t, op, ShiftRule(t, s).value); }
    forall a | a in t.shifts && Shares(t.shifts[a], s)
      ensures !Overlaps(s.start, s.end, t.shifts[a].start, t.shifts[a].end)
    {
      assert !Fails(t, op, ShiftOverlap(a));
    }
  }

  ghost function Execute(t: Tables, ops: seq<Op>): Tables
    decreases |ops|
  {
    if ops == [] then t else Execute(Next(t, ops[0]), ops[1..])
  }

  // Runs in which no report puts a task back where it no longer fits.
  ghost predicate Undisplaced(t: Tables, ops: seq<Op>)
    decreases |ops|
  {
    ops == [] || (!Displaces(t, ops[0]) && Undisplaced(Next(t, ops[0]), ops[1..]))
  }

  // Over any such run of operations and reports, the shifts of every operator and machine stay
  // disjoint, and so do the planned tasks of every shift, which start inside it.
  lemma {:induction false} RunKeepsPlan(t: Tables, ops: seq<Op>)
    requires PlanSound(t) && Undisplaced(t, ops)
    ensures PlanSound(Execute(t, ops))
    decreases |ops|
  {
    if ops != [] {
      StepKeepsPlanExactly(t, ops[0]);
      RunKeepsPlan(Next(t, ops[0]), ops[1..]);
    }
  }

  ghost predicate NoReports(ops: seq<Op>) { forall i :: 0 <= i < |ops| ==> !ops[i].StatusReport? }

  // The admins alone never break the plan.
  lemma {:induction false} AdminsKeepPlan(t: Tables, ops: seq<Op>)
    requires PlanSound(t) && NoReports(ops)
    ensures PlanSound(Execute(t, ops))
    decreases |ops|
  {
    if ops != [] {
      assert !ops[0].StatusReport?;
      StepKeepsPlanExactly(t, ops[0]);
      AdminsKeepPlan(Next(t, ops[0]), ops[1..]);
    }
  }

  // An operation without a requested start is never refused for overlap, whatever came before and
  // however long the task is planned to take.
  lemma DefaultStartNeverClashes(t: Tables, op: Op, other: string)
    requires (op.CreateTask? || op.ReassignTask?) && op.requestedStart.None?
    ensures !Fails(t, op, TaskOverlap(other))
  {
    var shiftId := if op.CreateTask? then op.shiftId else op.target;
    var id := if op.CreateTask? then op.newId else op.id;
    if shiftId in t.shifts { assert IsDefaultStart(t, id, shiftId, DefaultStart(t, id, shiftId)); }
  }

  // The operations of a run that are accepted.
  ghost function AcceptedOps(t: Tables, ops: seq<Op>): seq<Op>
    decreases |ops|
  {
    if ops == [] then []
    else (if Refused(t, ops[0]) then [] else [ops[0]]) + AcceptedOps(Next(t, ops[0]), ops[1..])
  }

  // Refused operations leave nothing behind: without them the run ends in the same tables.
  lemma {:induction false} RefusedOpsLeaveNothing(t: Tables, ops: seq<Op>)
    ensures Execute(t, AcceptedOps(t, ops)) == Execute(t, ops)
    decreases |ops|
  {
    if ops != [] {
      var rest := AcceptedOps(Next(t, ops[0]), ops[1..]);
      RefusedOpsLeaveNothing(Next(t, ops[0]), ops[1..]);
      if Refused(t, ops[0]) {
        assert [] + rest == rest;
      } else {
        assert ([ops[0]] + rest)[1..] == rest;
      }
    }
  }

  // --- A roll-back that double-books ------------------------------------------------------

  function BookingOf(task: Task): Booking {
    Booking(task.shiftId, task.taskType, task.start, task.end, task.skill)
  }

  function Plain(newId: string, taskType: string, shiftId: string, start: real, planned: real): Op {
    CreateTask(newId, taskType, UnitFor(taskType), shiftId, Some(start), planned)
  }

  // The admins cancel a task and plan another in its place; the edge, which has started the first
  // one by then, reports it under the assignment the cloud had sent.
  ghost function CancelledTooLate(t: Tables, a: string, b: string, taskType: string, shiftId: string, start: real,
                                  planned: real, number: int): seq<Op>
    requires a in Next(t, Plain(a, taskType, shiftId, start, planned)).tasks
  {
    [Plain(a, taskType, shiftId, start, planned), CancelTask(a), Plain(b, taskType, shiftId, start, planned),
     StatusReport(a, InProgress, true, BookingOf(Next(t, Plain(a, taskType, shiftId, start, planned)).tasks[a]),
                  number)]
  }

  // The first task is planned as requested, and cancelled.
  lemma PlannedAndCancelled(t: Tables, a: string, taskType: string, shiftId: string, start: real, planned: real)
    requires a !in t.tasks && !Refused(t, Plain(a, taskType, shiftId, start, planned))
    ensures var t1 := Next(t, Plain(a, taskType, shiftId, start, planned));
            && a in t1.tasks && t1 == t.(tasks := t.tasks[a := t1.tasks[a]])
            && var row := t1.tasks[a];
               && row.shiftId == shiftId && row.start == start && row.end == Some(start + planned)
               && row.status == Assigned && row.edgeSyncSeq == 0
               && Next(t1, CancelTask(a)) == t.(tasks := t.tasks[a := row.(status := Cancelled)])
  {
    var first := Plain(a, taskType, shiftId, start, planned);
    AcceptedPlaces(t, first);
    var t1 := Next(t, first);
    assert forall e :: !Fails(t1, CancelTask(a), e);
    assert t.tasks[a := t1.tasks[a]][a := t1.tasks[a].(status := Cancelled)]
           == t.tasks[a := t1.tasks[a].(status := Cancelled)];
  }

  // Wherever a task can be planned at all, that run books the shift twice.
  lemma RollBackDoubleBooks(t: Tables, a: string, b: string, taskType: string, shiftId: string, start: real,
                            planned: real, number: int)
    requires PlanSound(t) && a !in t.tasks && b !in t.tasks && a != b && planned > 0.0 && number > 0
    requires !Refused(t, Plain(a, taskType, shiftId, start, planned))
    ensures a in Next(t, Plain(a, taskType, shiftId, start, planned)).tasks
    ensures !PlanSound(Execute(t, CancelledTooLate(t, a, b, taskType, shiftId, start, planned, number)))
  {
    var first, second := Plain(a, taskType, shiftId, start, planned), Plain(b, taskType, shiftId, start, planned);
    PlannedAndCancelled(t, a, taskType, shiftId, start, planned);
    var row := Next(t, first).tasks[a];
    var t2 := Next(Next(t, first), CancelTask(a));
    AcceptedAgain(t, t2, first, second);
    PlannedAndCancelled(t2, b, taskType, shiftId, start, planned);
    var report := StatusReport(a, InProgress, true, BookingOf(row), number);
    BackInItsPlace(Next(t2, second), a, b, start, planned, report);
    ExecuteFour(t, first, CancelTask(a), second, report);
  }

  // The report brings the cancelled task back onto the one planned in its place.
  lemma BackInItsPlace(t: Tables, a: string, b: string, start: real, planned: real, report: Op)
    requires a in t.tasks && b in t.tasks && a != b && planned > 0.0
    requires t.tasks[a].status == Cancelled && t.tasks[b].status != Cancelled
    requires t.tasks[b].start == start && t.tasks[b].end == Some(start + planned)
    requires report.StatusReport? && report.id == a && report.status == InProgress && report.started
    requires report.booking.shiftId == t.tasks[b].shiftId && report.booking.start == start
    requires report.booking.end == Some(start + planned) && report.number > t.tasks[a].edgeSyncSeq
    ensures !PlanSound(Next(t, report))
  {
    var after := Next(t, report).tasks;
    assert after[a].start == start && after[a].end == Some(start + planned) && after[b] == t.tasks[b];
    assert BothPlanned(after[a], after[b]);
  }

  // What could be planned can be planned again once it is cancelled.
  lemma AcceptedAgain(t: Tables, t2: Tables, first: Op, second: Op)
    requires first.CreateTask? && !Refused(t, first) && first.requestedStart.Some?
    requires second.CreateTask? && second.newId !in t.tasks && second.taskType == first.taskType
    requires second.unit == first.unit && second.shiftId == first.shiftId
    requires second.requestedStart == first.requestedStart && second.planned == first.planned
    requires t2 == t.(tasks := t2.tasks) && t2.tasks.Keys == t.tasks.Keys + {first.newId} && first.newId !in t.tasks
    requires t2.tasks[first.newId].status == Cancelled && forall u :: u in t.tasks ==> t2.tasks[u] == t.tasks[u]
    ensures !Refused(t2, second)
  {
    AcceptedPlaces(t, first);
    assert !Fails(t, first, WrongUnit);
    var draft := NewTask(first.shiftId, first.taskType);
    var task := Placed(t, first.newId, draft, first.shiftId, first.requestedStart, first.planned);
    assert task == Placed(t2, second.newId, draft, first.shiftId, first.requestedStart, first.planned);
    forall e ensures !Fails(t2, second, e) {
      if e.TaskOverlap? && e.id in t2.tasks && IsActive(t2.tasks[e.id], task.shiftId) { assert e.id in t.tasks; }
    }
  }

  lemma ExecuteFour(t: Tables, a: Op, b: Op, c: Op, d: Op)
    ensures Execute(t, [a, b, c, d]) == Next(Next(Next(Next(t, a), b), c), d)
  {
    assert [a, b, c, d][1..] == [b, c, d] && [b, c, d][1..] == [c, d];
    ExecuteTwo(Next(Next(t, a), b), c, d);
    assert Execute(Next(t, a), [b, c, d]) == Execute(Next(Next(t, a), b), [c, d]);
  }

  lemma ExecuteTwo(t: Tables, a: Op, b: Op)
    ensures Execute(t, [a, b]) == Next(Next(t, a), b)
  {
    assert [a, b][1..] == [b] && [b][1..] == [];
    assert Execute(Next(t, a), [b]) == Execute(Next(Next(t, a), b), []);
  }

  // The tables of one qualified operator and one excavator, with nothing planned.
  function OneOfEach(operatorId: string, machineId: string, skill: string): Tables {
    Tables({operatorId}, map[machineId := Machine("excavator", false)], map[(operatorId, "excavator") := skill],
           map[], map[])
  }

  // It happens on a first shift of any window, with two tasks of any length at its start.
  lemma FirstShiftDoubleBooks(operatorId: string, machineId: string, skill: string, shiftId: string, start: real,
                              end: real, a: string, b: string, planned: real, number: int)
    requires start < end && a != b && planned > 0.0 && number > 0
    ensures var t := Next(OneOfEach(operatorId, machineId, skill),
                          CreateShift(shiftId, Shift(operatorId, machineId, start, end)));
            && PlanSound(t) && a in Next(t, Plain(a, "excavation", shiftId, start, planned)).tasks
            && !PlanSound(Execute(t, CancelledTooLate(t, a, b, "excavation", shiftId, start, planned, number)))
  {
    var empty, shift := OneOfEach(operatorId, machineId, skill), Shift(operatorId, machineId, start, end);
    var op := CreateShift(shiftId, shift);
    assert forall e :: !Fails(empty, op, e);
    var t := Next(empty, op);
    assert t == empty.(shifts := map[shiftId := shift]);
    var first := Plain(a, "excavation", shiftId, start, planned);
    assert TaskRule(t, "excavation", shift).None?;
    forall e ensures !Fails(t, first, e) {
      assert Placed(t, a, NewTask(shiftId, "excavation"), shiftId, Some(start), planned).start == start;
    }
    RollBackDoubleBooks(t, a, b, "excavation", shiftId, start, planned, number);
  }

  // --- The service ----------------------------------------------------------------------

  // What the service computes from the query rows is the default start.
  lemma SlotsGiveDefaultStart(t: Tables, id: string, shiftId: string, others: seq<Slot>, start: real)
    requires shiftId in t.shifts && TaskRows(t.tasks, others, shiftId, id)
    requires start >= t.shifts[shiftId].start && forall i :: 0 <= i < |others| ==> start >= others[i].end
    requires start == t.shifts[shiftId].start || exists i :: 0 <= i < |others| && start == others[i].end
    ensures start == DefaultStart(t, id, shiftId)
  {
    forall u | u in t.tasks && u != id && IsActive(t.tasks[u], shiftId) ensures start >= TaskEnd(t.tasks[u]) {
      assert TaskSlot(u, t.tasks[u]) in others;
    }
    if start != t.shifts[shiftId].start {
      var i :| 0 <= i < |others| && start == others[i].end;
      assert others[i] == TaskSlot(others[i].id, t.tasks[others[i].id]);
    }
    assert IsDefaultStart(t, id, shiftId, start);
  }

  lemma DefaultStartHasRoom(t: Tables, id: string, shiftId: string)
    requires shiftId in t.shifts
    ensures DefaultStart(t, id, shiftId) < t.shifts[shiftId].end
       <==> t.shifts[shiftId].start < t.shifts[shiftId].end && RoomLeft(t, id, shiftId)
  {
    assert IsDefaultStart(t, id, shiftId, DefaultStart(t, id, shiftId));
  }

  class AdminService {
    const operators: set<string>
    const machines: map<string, Machine>
    const skills: map<(string, string), string>
    var shifts: map<string, Shift>
    var tasks: map<string, Task>

    constructor (operators: set<string>, machines: map<string, Machine>, skills: map<(string, string), string>)
      ensures PlanSound(View()) && View() == Tables(operators, machines, skills, map[], map[])
    {
      this.operators, this.machines, this.skills := operators, machines, skills;
      shifts, tasks := map[], map[];
    }

    function View(): Tables
      reads this
    {
      Tables(operators, machines, skills, shifts, tasks)
    }

    method CreateShift(newId: string, s: Shift) returns (r: Result<string, Error>)
      requires newId !in shifts
      modifies this`shifts
      ensures View() == Next(old(View()), Op.CreateShift(newId, s))
      ensures r.Ok? ==> !Refused(old(View()), Op.CreateShift(newId, s))
      ensures r.Err? ==> Fails(old(View()), Op.CreateShift(newId, s), r.error) && View() == old(View())
      ensures r.Ok? <==> ShiftRule(View(), s).None? && BothFree(old(View()), s)
    {
      ghost var op := Op.CreateShift(newId, s);
      var broken := ShiftRule(View(), s);
      if broken.Some? {
        assert Fails(View(), op, broken.value);
        return Err(broken.value);
      }
      var ofOperator := ShiftSlots(shifts, Some(s.operatorId), None, s.start, s.end);
      var ofMachine := ShiftSlots(shifts, None, Some(s.machineId), s.start, s.end);
      RowsAreFree(View(), ofOperator, ofMachine, s);
      var clash := FirstOverlap(s.start, s.end, ofOperator);
      if clash.None? { clash := FirstOverlap(s.start, s.end, ofMachine); }
      if clash.Some? {
        assert Fails(View(), op, ShiftOverlap(clash.value.id));
        return Err(ShiftOverlap(clash.value.id));
      }
      assert !Refused(View(), op);
      shifts := shifts[newId := s];
      r := Ok(newId);
    }

    // Every task rule against the target shift; planned: minutes the ETA model gives the task.
    method PlaceTask(id: string, draft: Task, shiftId: string, requestedStart: Option<real>, planned: real)
      returns (r: Result<Task, Error>)
      requires shiftId in shifts
      ensures r.Err? ==> PlaceFails(View(), id, draft, shiftId, requestedStart, planned, r.error)
      ensures r.Ok? ==>
                && (forall e :: !PlaceFails(View(), id, draft, shiftId, requestedStart, planned, e))
                && TaskRule(View(), draft.taskType, shifts[shiftId]).None?
                && r.value == Placed(View(), id, draft, shiftId, requestedStart, planned)
                && Fitting(View(), id, r.value)
      ensures r.Ok? <==> Placeable(View(), id, draft, shiftId, requestedStart, planned)
    {
      var shift := shifts[shiftId];
      var broken := TaskRule(View(), draft.taskType, shift);
      if broken.Some? { return Err(broken.value); }
      var others := ActiveTasks(tasks, shiftId, id);
      var start;
      if requestedStart.Some? {
        start := requestedStart.value;
      } else {
        start := NextFreeStart(shift, others);
        SlotsGiveDefaultStart(View(), id, shiftId, others, start);
        DefaultStartHasRoom(View(), id, shiftId);
      }
      var skill := skills[(shift.operatorId, machines[shift.machineId].machineType)];
      var task := draft.(shiftId := shiftId, skill := skill, start := start, end := Some(start + planned));
      assert task == Placed(View(), id, draft, shiftId, requestedStart, planned);
      if !Within(shift.start, shift.end, start) { return Err(OutsideShift); }
      RowsFit(View(), id, task, others);
      PlacementIsExact(View(), id, draft, shiftId, requestedStart, planned);
      var clash := FirstOverlap(start, TaskEnd(task), others);
      if clash.Some? { return Err(TaskOverlap(clash.value.id)); }
      r := Ok(task);
    }

    method CreateTask(newId: string, taskType: string, unit: string, shiftId: string, requestedStart: Option<real>,
                      planned: real)
      returns (r: Result<string, Error>)
      requires newId !in tasks
      modifies this`tasks
      ensures View() == Next(old(View()), Op.CreateTask(newId, taskType, unit, shiftId, requestedStart, planned))
      ensures r.Ok? ==> !Refused(old(View()), Op.CreateTask(newId, taskType, unit, shiftId, requestedStart, planned))
      ensures r.Err? ==>
                Fails(old(View()), Op.CreateTask(newId, taskType, unit, shiftId, requestedStart, planned), r.error)
                         && View() == old(View())
      ensures r.Ok? <==> unit == UnitFor(taskType)
                         && Placeable(old(View()), newId, NewTask(shiftId, taskType), shiftId, requestedStart, planned)
    {
      ghost var op := Op.CreateTask(newId, taskType, unit, shiftId, requestedStart, planned);
      if unit != UnitFor(taskType) {
        assert Fails(View(), op, WrongUnit);
        return Err(WrongUnit);
      }
      if shiftId !in shifts {
        assert Fails(View(), op, NotFound(shiftId));
        return Err(NotFound(shiftId));
      }
      var placed := PlaceTask(newId, NewTask(shiftId, taskType), shiftId, requestedStart, planned);
      if placed.Err? {
        assert Fails(View(), op, placed.error);
        return Err(placed.error);
      }
      assert !Refused(View(), op);
      tasks := tasks[newId := placed.value];
      r := Ok(newId);
    }

    method CancelTask(id: string) returns (r: Result<string, Error>)
      modifies this`tasks
      ensures View() == Next(old(View()), Op.CancelTask(id))
      ensures r.Err? ==> Fails(old(View()), Op.CancelTask(id), r.error) && View() == old(View())
      ensures r.Ok? <==> ChangeRule(old(tasks), id).None?
    {
      ghost var op := Op.CancelTask(id);
      var broken := ChangeRule(tasks, id);
      if broken.Some? {
        assert Fails(View(), op, broken.value);
        return Err(broken.value);
      }
      assert !Refused(View(), op);
      tasks := tasks[id := tasks[id].(status := Cancelled)];
      r := Ok(id);
    }

    method ReassignTask(id: string, target: string, requestedStart: Option<real>, planned: real)
      returns (r: Result<string, Error>)
      modifies this`tasks
      ensures View() == Next(old(View()), Op.ReassignTask(id, target, requestedStart, planned))
      ensures r.Err? ==>
                Fails(old(View()), Op.ReassignTask(id, target, requestedStart, planned), r.error)
                && View() == old(View())
      ensures r.Ok? <==> ChangeRule(old(tasks), id).None? && old(tasks)[id].shiftId != target
                         && Placeable(old(View()), id, old(tasks)[id].(reassigned := true), target, requestedStart,
                                      planned)
    {
      ghost var op := Op.ReassignTask(id, target, requestedStart, planned);
      var broken := ChangeRule(tasks, id);
      if broken.Some? {
        assert Fails(View(), op, broken.value);
        return Err(broken.value);
      }
      if tasks[id].shiftId == target {
        assert Fails(View(), op, SameShift);
        return Err(SameShift);
      }
      if target !in shifts {
        assert Fails(View(), op, NotFound(target));
        return Err(NotFound(target));
      }
      var placed := PlaceTask(id, tasks[id].(reassigned := true), target, requestedStart, planned);
      if placed.Err? {
        assert Fails(View(), op, placed.error);
        return Err(placed.error);
      }
      assert !Refused(View(), op);
      tasks := tasks[id := placed.value];
      r := Ok(id);
    }

    // A status report from the edge.
    method ApplyTaskStatus(id: string, status: Status, started: bool, booking: Booking, number: int)
      modifies this`tasks
      ensures View() == Next(old(View()), StatusReport(id, status, started, booking, number))
      ensures if id !in old(tasks) || number <= old(tasks)[id].edgeSyncSeq then tasks == old(tasks)
              else
                && id in tasks && tasks == old(tasks)[id := tasks[id]]
                && tasks[id].status == status && tasks[id].started == started && tasks[id].edgeSyncSeq == number
                && tasks[id].reassigned == old(tasks)[id].reassigned
                && BookingOf(tasks[id]) == if started && (old(tasks)[id].status == Cancelled
                                                         || old(tasks)[id].shiftId != booking.shiftId)
                                           then booking else BookingOf(old(tasks)[id])
    {
      if id !in tasks { return; }
      var task := tasks[id];
      if number <= task.edgeSyncSeq {
        assert tasks[id := task] == tasks;
        return;
      }
      if started && (task.status == Cancelled || task.shiftId != booking.shiftId) {
        task := task.(shiftId := booking.shiftId, taskType := booking.taskType, start := booking.start,
                      end := booking.end, skill := booking.skill);
      }
      task := task.(status := status, started := started, edgeSyncSeq := number);
      tasks := tasks[id := task];
    }
  }

  // Placing fails with some error exactly when the task is not placeable.
  lemma PlacementIsExact(t: Tables, id: string, draft: Task, shiftId: string, requestedStart: Option<real>,
                         planned: real)
    requires shiftId in t.shifts && TaskRule(t, draft.taskType, t.shifts[shiftId]).None?
    ensures var task := Placed(t, id, draft, shiftId, requestedStart, planned);
            && (Placeable(t, id, draft, shiftId, requestedStart, planned) <==> Fitting(t, id, task))
            && (Fitting(t, id, task) <==> forall e :: !PlaceFails(t, id, draft, shiftId, requestedStart, planned, e))
  {
    var task := Placed(t, id, draft, shiftId, requestedStart, planned);
    if forall e :: !PlaceFails(t, id, draft, shiftId, requestedStart, planned, e) {
      NothingFails(t, id, draft, shiftId, requestedStart, planned);
    }
    if requestedStart.None? {
      DefaultStartHasRoom(t, id, shiftId);
      assert IsDefaultStart(t, id, shiftId, task.start);
    } else {
      var plain := draft.(shiftId := shiftId, start := requestedStart.value,
                          end := Some(requestedStart.value + planned));
      assert TaskFits(t, id, plain) <==> TaskFits(t, id, task);
    }
  }
}
