// Two-way task synchronisation: the cloud owns a task until it starts, the edge afterwards.
// Handlers: backend/app/sync/handlers/edge_to_cloud.py and cloud_to_edge.py. Senders:
// backend/app/cloud/assignment/service.py and backend/app/edge/tasks/service.py.
// Each direction is an in-order queue with a growing sequence number.
module CloudEdgeTasks {
  import opened Prelude
  import opened TaskService

  datatype CloudTask = CloudTask(assignment: Assignment, fields: EdgeFields, edgeSyncSeq: int)

  datatype Message =
    | TaskAssigned(taskId: string, assignment: Assignment)
    | TaskReassigned(taskId: string, assignment: Assignment)
    | TaskCancelled(taskId: string)
    | TaskStatus(taskId: string, fields: EdgeFields, assignment: Assignment)

  datatype Envelope = Envelope(number: int, msg: Message)

  datatype ConflictType = CancelAfterStart | ReassignAfterStart
  datatype Conflict = Conflict(taskId: string, kind: ConflictType, edgeActualStart: real)

  const FRESH_CANCELLED := FRESH.(status := Cancelled)

  // --- Handlers ---------------------------------------------------------------------

  function ConflictWith(task: CloudTask, edgeShiftId: string): Option<ConflictType> {
    if task.fields.status == Cancelled then Some(CancelAfterStart)
    else if task.assignment.shiftId != edgeShiftId then Some(ReassignAfterStart)
    else None
  }

  function ConflictOnStatus(task: CloudTask, fields: EdgeFields, assignment: Assignment,
                            number: int): Option<ConflictType> {
    if number <= task.edgeSyncSeq || fields.actualStart.None? then None
    else ConflictWith(task, assignment.shiftId)
  }

  function StatusApplied(task: CloudTask, fields: EdgeFields, assignment: Assignment, number: int): CloudTask {
    if number <= task.edgeSyncSeq then task
    else if ConflictOnStatus(task, fields, assignment, number).Some? then CloudTask(assignment, fields, number)
    else CloudTask(task.assignment, fields, number)
  }

  predicate Started(task: EdgeTask) {
    task.fields.actualStart.Some? || task.fields.status != Assigned
  }

  // What a cloud message does to the edge copy of its task.
  function EdgeHandled(task: Option<EdgeTask>, e: Envelope): Option<EdgeTask> {
    match e.msg
    case TaskCancelled(_) =>
      if task.None? || e.number <= task.value.syncSeq || Started(task.value) then task
      else Some(task.value.(fields := task.value.fields.(status := Cancelled), syncSeq := e.number))
    case TaskStatus(_, _, _) => task
    case _ =>
      if task.None? then Some(EdgeTask(e.msg.assignment, FRESH, None, e.number))
      else if e.number <= task.value.syncSeq || Started(task.value) then task
      else Some(task.value.(assignment := e.msg.assignment, syncSeq := e.number))
  }

  // The tables the handlers write, updated in place.
  class CloudTaskTable {
    var tasks: map<string, CloudTask>
    var conflicts: seq<Conflict>

    method ApplyTaskStatus(taskId: string, fields: EdgeFields, assignment: Assignment, number: int)
      modifies this
      ensures tasks == if taskId in old(tasks)
                       then old(tasks)[taskId := StatusApplied(old(tasks)[taskId], fields, assignment, number)]
                       else old(tasks)
      ensures conflicts == old(conflicts) +
                if taskId in old(tasks) && ConflictOnStatus(old(tasks)[taskId], fields, assignment, number).Some?
                then [Conflict(taskId, ConflictOnStatus(old(tasks)[taskId], fields, assignment, number).value,
                               fields.actualStart.value)]
                else []
      ensures var counts := taskId in old(tasks) && number > old(tasks)[taskId].edgeSyncSeq && fields.actualStart.Some?;
              if counts && old(tasks)[taskId].fields.status == Cancelled
              then conflicts == old(conflicts) + [Conflict(taskId, CancelAfterStart, fields.actualStart.value)]
              else if counts && old(tasks)[taskId].assignment.shiftId != assignment.shiftId
              then conflicts == old(conflicts) + [Conflict(taskId, ReassignAfterStart, fields.actualStart.value)]
              else conflicts == old(conflicts)
    {
      if taskId !in tasks {
        return;
      }
      var task := tasks[taskId];
      if number <= task.edgeSyncSeq {
        assert tasks == tasks[taskId := task];
        return;
      }
      if fields.actualStart.Some? {
        var conflict := ConflictWith(task, assignment.shiftId);
        if conflict.Some? {
          conflicts := conflicts + [Conflict(taskId, conflict.value, fields.actualStart.value)];
          task := task.(assignment := assignment);
        }
      }
      task := task.(fields := fields, edgeSyncSeq := number);
      tasks := tasks[taskId := task];
    }
  }

  class EdgeTaskTable {
    var tasks: map<string, EdgeTask>

    method ApplyTaskAssignment(taskId: string, assignment: Assignment, number: int)
      modifies this
      ensures tasks == Updated(old(tasks), taskId,
                EdgeHandled(Get(old(tasks), taskId), Envelope(number, TaskAssigned(taskId, assignment))))
    {
      if taskId !in tasks {
        tasks := tasks[taskId := EdgeTask(assignment, FRESH, None, number)];
      } else if number <= tasks[taskId].syncSeq {
        assert tasks == tasks[taskId := tasks[taskId]];
      } else if Started(tasks[taskId]) {
        assert tasks == tasks[taskId := tasks[taskId]];
      } else {
        tasks := tasks[taskId := tasks[taskId].(assignment := assignment, syncSeq := number)];
      }
    }

    method ApplyTaskCancelled(taskId: string, number: int)
      modifies this
      ensures tasks == Updated(old(tasks), taskId,
                EdgeHandled(Get(old(tasks), taskId), Envelope(number, TaskCancelled(taskId))))
    {
      if taskId !in tasks {
        return;
      }
      var task := tasks[taskId];
      if number <= task.syncSeq || Started(task) {
        assert tasks == tasks[taskId := task];
        return;
      }
      task := task.(fields := task.fields.(status := Cancelled));
      task := task.(syncSeq := number);
      tasks := tasks[taskId := task];
    }
  }

  function Updated<V>(m: map<string, V>, id: string, v: Option<V>): map<string, V> {
    if v.Some? then m[id := v.value] else m
  }

  // --- The system -------------------------------------------------------------------

  datatype System = System(
    cloud: map<string, CloudTask>,
    edge: map<string, EdgeTask>,
    down: seq<Envelope>,      // cloud outbox, undelivered part
    up: seq<Envelope>,        // edge outbox, undelivered part
    downLast: int,
    upLast: int,
    conflicts: seq<Conflict>)

  const INITIAL := System(map[], map[], [], [], 0, 0, [])

  datatype Step =
    | CloudCreate(id: string, assignment: Assignment)
    | CloudCancel(id: string)
    | CloudReassign(id: string, assignment: Assignment)
    | EdgeAct(id: string, action: Action, now: real)
    | EdgeProgress(id: string, quantity: real, revision: Option<Revision>)
    | DeliverDown
    | DeliverUp

  function SendDown(s: System, msg: Message): System {
    s.(down := s.down + [Envelope(s.downLast + 1, msg)], downLast := s.downLast + 1)
  }

  function SendUp(s: System, msg: Message): System {
    s.(up := s.up + [Envelope(s.upLast + 1, msg)], upLast := s.upLast + 1)
  }

  predicate Unstarted(task: CloudTask) {
    task.fields.actualStart.None? && task.fields.status == Assigned
  }

  // The edge writes a task and reports it in the same transaction.
  function EdgeWrite(s: System, id: string, task: EdgeTask): System {
    SendUp(s.(edge := s.edge[id := task]), TaskStatus(id, task.fields, task.assignment))
  }

  function Progressed(task: EdgeTask, quantity: real, revision: Option<Revision>): EdgeTask {
    task.(fields := task.fields.(completedQuantity := quantity,
                                 revision := if revision.Some? then revision else task.fields.revision))
  }

  // One transaction. A rejected request, or a delivery with nothing queued, changes nothing.
  function Next(s: System, step: Step): System {
    match step
    case CloudCreate(id, a) =>
      if id in s.cloud then s
      else SendDown(s.(cloud := s.cloud[id := CloudTask(a, FRESH, 0)]), TaskAssigned(id, a))
    case CloudCancel(id) =>
      if id !in s.cloud || !Unstarted(s.cloud[id]) then s
      else SendDown(s.(cloud := s.cloud[id := s.cloud[id].(fields := s.cloud[id].fields.(status := Cancelled))]),
                    TaskCancelled(id))
    case CloudReassign(id, a) =>
      if id !in s.cloud || !Unstarted(s.cloud[id]) || s.cloud[id].assignment.shiftId == a.shiftId then s
      else SendDown(s.(cloud := s.cloud[id := s.cloud[id].(assignment := a)]), TaskReassigned(id, a))
    case EdgeAct(id, action, now) =>
      if id !in s.edge || !Accepts(s.edge[id].fields.status, action) then s
      else EdgeWrite(s, id, Applied(s.edge[id], action, now))
    case EdgeProgress(id, quantity, revision) =>
      if id !in s.edge || s.edge[id].fields.status != InProgress then s
      else EdgeWrite(s, id, Progressed(s.edge[id], quantity, revision))
    case DeliverDown =>
      if s.down == [] then s
      else
        var e := s.down[0];
        s.(down := s.down[1..],
           edge := Updated(s.edge, e.msg.taskId, EdgeHandled(Get(s.edge, e.msg.taskId), e)))
    case DeliverUp =>
      if s.up == [] then s
      else
        var e := s.up[0];
        var id := e.msg.taskId;
        var rest := s.(up := s.up[1..]);
        if !e.msg.TaskStatus? || id !in s.cloud then rest
        else
          var conflict := ConflictOnStatus(s.cloud[id], e.msg.fields, e.msg.assignment, e.number);
          rest.(cloud := s.cloud[id := StatusApplied(s.cloud[id], e.msg.fields, e.msg.assignment, e.number)],
                conflicts := s.conflicts +
                  if conflict.Some? then [Conflict(id, conflict.value, e.msg.fields.actualStart.value)] else [])
  }

  function Execute(s: System, steps: seq<Step>): System
    decreases |steps|
  {
    if steps == [] then s else Execute(Next(s, steps[0]), steps[1..])
  }

  // Resuming (or unblocking) a task that never started: it gets a running status without an
  // actual start, so the cloud's conflict test never looks at it.
  predicate ResumesUnstarted(s: System, step: Step) {
    step.EdgeAct? && step.id in s.edge && s.edge[step.id].fields.status == Assigned && step.action in {Resume, Unblock}
  }

  // The cloud has cancelled the task, on the shift the edge has it on.
  predicate CancelledInPlace(s: System, id: string) {
    && id in s.cloud && id in s.edge && s.cloud[id].fields.status == Cancelled
    && s.cloud[id].assignment.shiftId == s.edge[id].assignment.shiftId
  }

  // The resumes after which the tiers can stay apart (DivergesExactly).
  predicate Diverging(s: System, step: Step) {
    ResumesUnstarted(s, step) && !CancelledInPlace(s, step.id)
  }

  ghost predicate Proper(s: System, steps: seq<Step>)
    decreases |steps|
  {
    steps == [] || (!Diverging(s, steps[0]) && Proper(Next(s, steps[0]), steps[1..]))
  }

  // --- What one task sees -----------------------------------------------------------

  function Of(q: seq<Envelope>, id: string): seq<Envelope> {
    if q == [] then []
    else (if q[0].msg.taskId == id then [q[0]] else []) + Of(q[1..], id)
  }

  function ConflictsOf(c: seq<Conflict>, id: string): seq<Conflict> {
    if c == [] then []
    else (if c[0].taskId == id then [c[0]] else []) + ConflictsOf(c[1..], id)
  }

  lemma {:induction false} OfAppend(q: seq<Envelope>, e: Envelope, id: string)
    ensures Of(q + [e], id) == Of(q, id) + if e.msg.taskId == id then [e] else []
  {
    if q != [] {
      assert (q + [e])[1..] == q[1..] + [e];
      OfAppend(q[1..], e, id);
    }
  }

  lemma {:induction false} ConflictsOfAppend(c: seq<Conflict>, x: Conflict, id: string)
    ensures ConflictsOf(c + [x], id) == ConflictsOf(c, id) + if x.taskId == id then [x] else []
  {
    if c != [] {
      assert (c + [x])[1..] == c[1..] + [x];
      ConflictsOfAppend(c[1..], x, id);
    }
  }

  // The queue, applied in full to the edge copy.
  function Replay(task: Option<EdgeTask>, q: seq<Envelope>): Option<EdgeTask>
    decreases |q|
  {
    if q == [] then task else Replay(EdgeHandled(task, q[0]), q[1..])
  }

  lemma {:induction false} ReplayAppend(task: Option<EdgeTask>, q: seq<Envelope>, e: Envelope)
    ensures Replay(task, q + [e]) == EdgeHandled(Replay(task, q), e)
    decreases |q|
  {
    if q != [] {
      assert (q + [e])[1..] == q[1..] + [e];
      ReplayAppend(EdgeHandled(task, q[0]), q[1..], e);
    } else {
      assert (q + [e])[1..] == [];
    }
  }

  predicate Numbered(q: seq<Envelope>, last: int) {
    && (forall i, j :: 0 <= i < j < |q| ==> q[i].number < q[j].number)
    && (forall i :: 0 <= i < |q| ==> 0 < q[i].number <= last)
  }

  predicate Ahead(q: seq<Envelope>, mark: int) {
    forall i :: 0 <= i < |q| ==> mark < q[i].number
  }

  lemma {:induction false} OfMembers(q: seq<Envelope>, id: string)
    ensures forall i :: 0 <= i < |Of(q, id)| ==> Of(q, id)[i] in q
  {
    if q != [] { OfMembers(q[1..], id); }
  }

  lemma {:induction false} ReplayBound(task: Option<EdgeTask>, q: seq<Envelope>, last: int)
    requires task.Some? ==> task.value.syncSeq <= last
    requires forall i :: 0 <= i < |q| ==> q[i].number <= last
    ensures Replay(task, q).Some? ==> Replay(task, q).value.syncSeq <= last
    decreases |q|
  {
    if q != [] { ReplayBound(EdgeHandled(task, q[0]), q[1..], last); }
  }

  datatype TaskView = TaskView(
    cloud: Option<CloudTask>, edge: Option<EdgeTask>, down: seq<Envelope>, up: seq<Envelope>, conflicts: seq<Conflict>)

  function View(s: System, id: string): TaskView {
    TaskView(Get(s.cloud, id), Get(s.edge, id), Of(s.down, id), Of(s.up, id), ConflictsOf(s.conflicts, id))
  }

  // Before the start: the queued cloud messages lead the edge copy to the cloud's state.
  predicate Waiting(v: TaskView) {
    && v.cloud.Some? && v.up == [] && v.conflicts == []
    && v.cloud.value.fields in {FRESH, FRESH_CANCELLED}
    && (v.edge.Some? ==> v.edge.value.fields in {FRESH, FRESH_CANCELLED})
    && Replay(v.edge, v.down).Some?
    && Replay(v.edge, v.down).value.assignment == v.cloud.value.assignment
    && Replay(v.edge, v.down).value.fields == v.cloud.value.fields
  }

  predicate Moving(fields: EdgeFields) {
    fields.status in {InProgress, Paused, Blocked, Done}
  }

  predicate Running(fields: EdgeFields) {
    fields.actualStart.Some? && Moving(fields)
  }

  predicate ReportsOf(up: seq<Envelope>, task: EdgeTask) {
    && (forall i :: 0 <= i < |up| ==>
          up[i].msg.TaskStatus? && Running(up[i].msg.fields) && up[i].msg.assignment == task.assignment)
    && (up != [] ==> up[|up| - 1].msg.fields == task.fields)
  }

  // Started on the edge, no report delivered yet.
  predicate Unreported(v: TaskView) {
    && v.cloud.Some? && v.edge.Some? && Running(v.edge.value.fields)
    && ReportsOf(v.up, v.edge.value) && v.up != []
    && v.cloud.value.fields in {FRESH, FRESH_CANCELLED} && v.conflicts == []
  }

  // Started and known to the cloud.
  predicate Reported(v: TaskView) {
    && v.cloud.Some? && v.edge.Some? && Running(v.edge.value.fields)
    && ReportsOf(v.up, v.edge.value)
    && Running(v.cloud.value.fields)
    && v.cloud.value.assignment.shiftId == v.edge.value.assignment.shiftId
    && (v.up == [] ==> v.cloud.value.fields == v.edge.value.fields)
    && |v.conflicts| <= 1
    && (v.conflicts != [] ==> v.cloud.value.assignment == v.edge.value.assignment)
  }

  // Resumed before it started, after the cloud had cancelled it: the first report, which shows no
  // actual start, is on its way or has already overwritten the cancel.
  predicate Overrun(v: TaskView) {
    && v.cloud.Some? && v.edge.Some? && Moving(v.edge.value.fields)
    && (forall i :: 0 <= i < |v.up| ==>
          v.up[i].msg.TaskStatus? && Moving(v.up[i].msg.fields) && v.up[i].msg.assignment == v.edge.value.assignment)
    && (if v.up == [] then v.cloud.value.fields == v.edge.value.fields
        else v.up[|v.up| - 1].msg.fields == v.edge.value.fields)
    && (Moving(v.cloud.value.fields)
        || (v.cloud.value.fields == FRESH_CANCELLED && v.up != [] && v.up[0].msg.fields.actualStart.None?))
    && v.cloud.value.assignment.shiftId == v.edge.value.assignment.shiftId && v.conflicts == []
  }

  predicate TaskInv(v: TaskView) {
    || v == TaskView(None, None, [], [], [])
    || Waiting(v)
    || Unreported(v)
    || Reported(v)
    || Overrun(v)
  }

  ghost predicate Numbers(s: System) {
    && Numbered(s.down, s.downLast) && Numbered(s.up, s.upLast) && 0 <= s.downLast && 0 <= s.upLast
    && (forall id :: id in s.edge ==> Ahead(s.down, s.edge[id].syncSeq) && s.edge[id].syncSeq <= s.downLast)
    && (forall id :: id in s.cloud ==> Ahead(s.up, s.cloud[id].edgeSyncSeq) && s.cloud[id].edgeSyncSeq <= s.upLast)
  }

  ghost predicate Inv(s: System) {
    Numbers(s) && forall id: string :: TaskInv(View(s, id))
  }

  // --- How each transaction moves the views -----------------------------------------

  lemma ViewOfCloudWrite(s: System, id: string, c: CloudTask, msg: Message, other: string)
    requires msg.taskId == id
    ensures View(SendDown(s.(cloud := s.cloud[id := c]), msg), other) ==
            if other != id then View(s, other)
            else View(s, id).(cloud := Some(c), down := View(s, id).down + [Envelope(s.downLast + 1, msg)])
  {
    OfAppend(s.down, Envelope(s.downLast + 1, msg), other);
    assert Of(s.down, other) + [] == Of(s.down, other);
  }

  lemma ViewOfEdgeWrite(s: System, id: string, task: EdgeTask, other: string)
    ensures View(EdgeWrite(s, id, task), other) ==
            if other != id then View(s, other)
            else View(s, id).(edge := Some(task), up := View(s, id).up +
                              [Envelope(s.upLast + 1, TaskStatus(id, task.fields, task.assignment))])
  {
    OfAppend(s.up, Envelope(s.upLast + 1, TaskStatus(id, task.fields, task.assignment)), other);
    assert Of(s.up, other) + [] == Of(s.up, other);
  }

  lemma OfPop(q: seq<Envelope>, id: string)
    requires q != []
    ensures Of(q[1..], id) == if q[0].msg.taskId == id then Of(q, id)[1..] else Of(q, id)
    ensures q[0].msg.taskId == id ==> Of(q, id) != [] && Of(q, id)[0] == q[0]
  {
  }

  // Handling a message stores its result for its task and touches no other.
  lemma HandledIsStored(edge: map<string, EdgeTask>, e: Envelope, id: string)
    ensures Get(Updated(edge, e.msg.taskId, EdgeHandled(Get(edge, e.msg.taskId), e)), id)
         == if e.msg.taskId == id then EdgeHandled(Get(edge, id), e) else Get(edge, id)
  {
  }

  lemma ViewOfDeliverDown(s: System, id: string)
    requires s.down != []
    ensures View(Next(s, DeliverDown), id) ==
            if s.down[0].msg.taskId != id then View(s, id)
            else View(s, id).(edge := EdgeHandled(Get(s.edge, id), s.down[0]), down := View(s, id).down[1..])
  {
    var t := Next(s, DeliverDown);
    OfPop(s.down, id);
    HandledIsStored(s.edge, s.down[0], id);
    assert t.down == s.down[1..] && t.up == s.up && t.cloud == s.cloud && t.conflicts == s.conflicts;
    assert Get(t.edge, id) == if s.down[0].msg.taskId == id then EdgeHandled(Get(s.edge, id), s.down[0])
                              else Get(s.edge, id);
  }

  function ReportHandled(v: TaskView, e: Envelope): TaskView
    requires e.msg.TaskStatus? && v.cloud.Some?
  {
    var c := v.cloud.value;
    var conflict := ConflictOnStatus(c, e.msg.fields, e.msg.assignment, e.number);
    v.(cloud := Some(StatusApplied(c, e.msg.fields, e.msg.assignment, e.number)),
       conflicts := v.conflicts +
         if conflict.Some? then [Conflict(e.msg.taskId, conflict.value, e.msg.fields.actualStart.value)] else [])
  }

  lemma ViewOfDeliverUp(s: System, id: string)
    requires s.up != [] && s.up[0].msg.TaskStatus? && s.up[0].msg.taskId in s.cloud
    ensures View(Next(s, DeliverUp), id) ==
            if s.up[0].msg.taskId != id then View(s, id)
            else ReportHandled(View(s, id), s.up[0]).(up := View(s, id).up[1..])
  {
    OfPop(s.up, id);
    var e := s.up[0];
    var conflict := ConflictOnStatus(s.cloud[e.msg.taskId], e.msg.fields, e.msg.assignment, e.number);
    if conflict.Some? {
      ConflictsOfAppend(s.conflicts, Conflict(e.msg.taskId, conflict.value, e.msg.fields.actualStart.value), id);
    } else {
      assert s.conflicts + [] == s.conflicts;
      assert ConflictsOf(s.conflicts, id) + [] == ConflictsOf(s.conflicts, id);
    }
  }

  // --- One task at a time -----------------------------------------------------------

  lemma WaitingOnCloudWrite(v: TaskView, c: CloudTask, e: Envelope)
    requires Waiting(v) && Unstarted(v.cloud.value)
    requires Replay(v.edge, v.down).value.syncSeq < e.number
    requires (e.msg.TaskReassigned? && e.msg.assignment == c.assignment && c.fields == v.cloud.value.fields)
          || (e.msg.TaskCancelled? && c == v.cloud.value.(fields := FRESH_CANCELLED))
    ensures Waiting(v.(cloud := Some(c), down := v.down + [e]))
  {
    ReplayAppend(v.edge, v.down, e);
  }

  lemma NewTaskWaits(c: CloudTask, e: Envelope)
    requires c.fields == FRESH && e.msg.TaskAssigned? && e.msg.assignment == c.assignment
    ensures Waiting(TaskView(Some(c), None, [e], [], []))
  {
    assert Replay(None, [e]) == Replay(EdgeHandled(None, e), []);
  }

  // What an accepted action or progress writes to the edge copy.
  predicate EdgeMayWrite(v: TaskView, task: EdgeTask) {
    && v.edge.Some? && task.assignment == v.edge.value.assignment && task.syncSeq == v.edge.value.syncSeq
    && (Running(task.fields) || (Overrun(v) && Moving(task.fields)))
  }

  lemma OverrunOnEdgeWrite(v: TaskView, task: EdgeTask, e: Envelope)
    requires Overrun(v) && task.assignment == v.edge.value.assignment && Moving(task.fields)
    requires e.msg.TaskStatus? && e.msg.fields == task.fields && e.msg.assignment == task.assignment
    ensures Overrun(v.(edge := Some(task), up := v.up + [e]))
  {
    var w := v.(edge := Some(task), up := v.up + [e]);
    assert v.up != [] ==> w.up[0] == v.up[0];
  }

  lemma InvOnEdgeWrite(v: TaskView, task: EdgeTask, e: Envelope)
    requires TaskInv(v) && EdgeMayWrite(v, task)
    requires e.msg.TaskStatus? && e.msg.fields == task.fields && e.msg.assignment == task.assignment
    ensures TaskInv(v.(edge := Some(task), up := v.up + [e]))
  {
    var w := v.(edge := Some(task), up := v.up + [e]);
    if Overrun(v) {
      OverrunOnEdgeWrite(v, task, e);
    } else {
      assert ReportsOf(w.up, task);
      assert if Reported(v) then Reported(w) else Unreported(w);
    }
  }

  // The one faulty resume that keeps the tiers together.
  lemma ResumeOverruns(v: TaskView, task: EdgeTask, e: Envelope)
    requires Waiting(v) && v.edge.Some? && task.assignment == v.edge.value.assignment
    requires v.cloud.value.fields == FRESH_CANCELLED
    requires v.cloud.value.assignment.shiftId == v.edge.value.assignment.shiftId
    requires Moving(task.fields) && task.fields.actualStart.None?
    requires e.msg.TaskStatus? && e.msg.fields == task.fields && e.msg.assignment == task.assignment
    ensures Overrun(v.(edge := Some(task), up := v.up + [e]))
  {
    assert v.up + [e] == [e];
  }

  lemma InvOnDown(v: TaskView)
    requires TaskInv(v) && v.down != []
    ensures TaskInv(v.(edge := EdgeHandled(v.edge, v.down[0]), down := v.down[1..]))
  {
    var w := v.(edge := EdgeHandled(v.edge, v.down[0]), down := v.down[1..]);
    if Waiting(v) {
      assert Waiting(w);
    } else {
      assert w.edge == v.edge;
      assert Overrun(v) ==> Overrun(w);
    }
  }

  lemma InvOnUp(v: TaskView)
    requires TaskInv(v) && v.up != [] && v.cloud.Some? && v.cloud.value.edgeSyncSeq < v.up[0].number
    ensures v.up[0].msg.TaskStatus?
    ensures TaskInv(ReportHandled(v, v.up[0]).(up := v.up[1..]))
    ensures Overrun(v) ==> Overrun(ReportHandled(v, v.up[0]).(up := v.up[1..]))
  {
    var w := ReportHandled(v, v.up[0]).(up := v.up[1..]);
    if Overrun(v) {
      OverrunOnUp(v);
    } else {
      assert ReportsOf(w.up, v.edge.value);
      assert Reported(w);
    }
  }

  lemma OverrunOnUp(v: TaskView)
    requires Overrun(v) && v.up != [] && v.cloud.value.edgeSyncSeq < v.up[0].number
    ensures Overrun(ReportHandled(v, v.up[0]).(up := v.up[1..]))
  {
    var w := ReportHandled(v, v.up[0]).(up := v.up[1..]);
    assert ConflictOnStatus(v.cloud.value, v.up[0].msg.fields, v.up[0].msg.assignment, v.up[0].number).None?;
    assert v.conflicts + [] == v.conflicts;
    assert w.cloud.value.fields == v.up[0].msg.fields;
    assert forall i :: 0 <= i < |w.up| ==> w.up[i] == v.up[i + 1];
  }

  // --- The whole system -------------------------------------------------------------

  lemma TailAhead(q: seq<Envelope>, last: int)
    requires Numbered(q, last) && q != []
    ensures Numbered(q[1..], last) && Ahead(q[1..], q[0].number) && q[0].number <= last
  {
    assert forall i :: 0 <= i < |q[1..]| ==> q[1..][i] == q[i + 1];
  }

  lemma NumbersAfterDelivery(s: System, step: Step)
    requires Numbers(s) && (step.DeliverDown? || step.DeliverUp?)
    ensures Numbers(Next(s, step))
  {
    if step.DeliverDown? && s.down != [] {
      TailAhead(s.down, s.downLast);
      forall id | id in Next(s, step).edge
        ensures Ahead(s.down[1..], Next(s, step).edge[id].syncSeq) && Next(s, step).edge[id].syncSeq <= s.downLast
      {
        if id in s.edge { assert Ahead(s.down[1..], s.edge[id].syncSeq); }
      }
    } else if step.DeliverUp? && s.up != [] {
      TailAhead(s.up, s.upLast);
      forall id | id in Next(s, step).cloud
        ensures Ahead(s.up[1..], Next(s, step).cloud[id].edgeSyncSeq) && Next(s, step).cloud[id].edgeSyncSeq <= s.upLast
      {
        assert Ahead(s.up[1..], s.cloud[id].edgeSyncSeq);
      }
    }
  }

  lemma NumbersAfterCloudWrite(s: System, id: string, c: CloudTask, msg: Message)
    requires Numbers(s) && c.edgeSyncSeq == if id in s.cloud then s.cloud[id].edgeSyncSeq else 0
    ensures Numbers(SendDown(s.(cloud := s.cloud[id := c]), msg))
  {
  }

  lemma NumbersAfterEdgeWrite(s: System, id: string, task: EdgeTask)
    requires Numbers(s) && id in s.edge && task.syncSeq == s.edge[id].syncSeq
    ensures Numbers(EdgeWrite(s, id, task))
  {
  }

  // A cloud write keeps the invariant if it keeps it for its own task.
  lemma CloudWriteSuffices(s: System, id: string, c: CloudTask, msg: Message)
    requires Inv(s) && msg.taskId == id && c.edgeSyncSeq == if id in s.cloud then s.cloud[id].edgeSyncSeq else 0
    requires TaskInv(View(s, id).(cloud := Some(c), down := View(s, id).down + [Envelope(s.downLast + 1, msg)]))
    ensures Inv(SendDown(s.(cloud := s.cloud[id := c]), msg))
  {
    var t := SendDown(s.(cloud := s.cloud[id := c]), msg);
    NumbersAfterCloudWrite(s, id, c, msg);
    forall other: string ensures TaskInv(View(t, other)) {
      ViewOfCloudWrite(s, id, c, msg, other);
      assert TaskInv(View(s, other));
    }
  }

  lemma CreateKeeps(s: System, id: string, a: Assignment)
    requires Inv(s) && id !in s.cloud
    ensures Inv(SendDown(s.(cloud := s.cloud[id := CloudTask(a, FRESH, 0)]), TaskAssigned(id, a)))
  {
    var c, e := CloudTask(a, FRESH, 0), Envelope(s.downLast + 1, TaskAssigned(id, a));
    var v := View(s, id);
    assert TaskInv(v);
    NewTaskWaits(c, e);
    assert v.down + [e] == [e];
    CloudWriteSuffices(s, id, c, e.msg);
  }

  // Cancelling or moving a task that the cloud holds unstarted.
  lemma ChangeKeeps(s: System, id: string, c: CloudTask, msg: Message)
    requires Inv(s) && id in s.cloud && Unstarted(s.cloud[id]) && msg.taskId == id
    requires c.edgeSyncSeq == s.cloud[id].edgeSyncSeq
    requires (msg.TaskReassigned? && msg.assignment == c.assignment && c.fields == s.cloud[id].fields)
          || (msg.TaskCancelled? && c == s.cloud[id].(fields := FRESH_CANCELLED))
    ensures Inv(SendDown(s.(cloud := s.cloud[id := c]), msg))
  {
    var v, e := View(s, id), Envelope(s.downLast + 1, msg);
    assert TaskInv(v);
    if Unreported(v) {
      assert Unreported(v.(cloud := Some(c), down := v.down + [e]));
    } else {
      OfMembers(s.down, id);
      ReplayBound(v.edge, v.down, s.downLast);
      WaitingOnCloudWrite(v, c, e);
    }
    CloudWriteSuffices(s, id, c, msg);
  }

  lemma CancelKeeps(s: System, id: string)
    requires Inv(s) && id in s.cloud && Unstarted(s.cloud[id])
    ensures Inv(Next(s, CloudCancel(id)))
  {
    assert TaskInv(View(s, id));
    ChangeKeeps(s, id, s.cloud[id].(fields := s.cloud[id].fields.(status := Cancelled)), TaskCancelled(id));
  }

  lemma CloudWriteKeeps(s: System, step: Step)
    requires Inv(s) && (step.CloudCreate? || step.CloudCancel? || step.CloudReassign?)
    ensures Inv(Next(s, step))
  {
    if Next(s, step) != s {
      match step
      case CloudCreate(id, a) => CreateKeeps(s, id, a);
      case CloudCancel(id) => CancelKeeps(s, id);
      case CloudReassign(id, a) => ChangeKeeps(s, id, s.cloud[id].(assignment := a), TaskReassigned(id, a));
    }
  }

  // So does an edge write.
  lemma EdgeWriteSuffices(s: System, id: string, task: EdgeTask)
    requires Inv(s) && id in s.edge && task.syncSeq == s.edge[id].syncSeq
    requires TaskInv(View(EdgeWrite(s, id, task), id))
    ensures Inv(EdgeWrite(s, id, task))
  {
    var t := EdgeWrite(s, id, task);
    NumbersAfterEdgeWrite(s, id, task);
    forall other: string ensures TaskInv(View(t, other)) {
      ViewOfEdgeWrite(s, id, task, other);
      assert TaskInv(View(s, other));
    }
  }

  // An accepted action, the faulty resume aside, leaves the task running with its assignment.
  lemma ActKeepsRunning(t: EdgeTask, action: Action, now: real)
    requires t.fields.status == Assigned ==> action !in {Resume, Unblock}
    requires Accepts(t.fields.status, action) && (Moving(t.fields) || t.fields in {FRESH, FRESH_CANCELLED})
    ensures var u := Applied(t, action, now);
            && Moving(u.fields) && u.assignment == t.assignment && u.syncSeq == t.syncSeq
            && (t.fields.actualStart.Some? || !Moving(t.fields) ==> Running(u.fields))
  {
  }

  lemma EdgeTaskIsKnown(s: System, id: string)
    requires Inv(s) && id in s.edge
    ensures Running(s.edge[id].fields) || s.edge[id].fields in {FRESH, FRESH_CANCELLED}
            || (Overrun(View(s, id)) && Moving(s.edge[id].fields))
  {
    assert TaskInv(View(s, id));
  }

  lemma EdgeWriteKeeps(s: System, step: Step)
    requires Inv(s) && (step.EdgeAct? || step.EdgeProgress?) && !ResumesUnstarted(s, step)
    ensures Inv(Next(s, step))
  {
    var id := step.id;
    if Next(s, step) != s {
      EdgeTaskIsKnown(s, id);
      assert TaskInv(View(s, id));
      var task := if step.EdgeAct? then Applied(s.edge[id], step.action, step.now)
                  else Progressed(s.edge[id], step.quantity, step.revision);
      if step.EdgeAct? { ActKeepsRunning(s.edge[id], step.action, step.now); }
      assert EdgeMayWrite(View(s, id), task);
      ViewOfEdgeWrite(s, id, task, id);
      InvOnEdgeWrite(View(s, id), task, Envelope(s.upLast + 1, TaskStatus(id, task.fields, task.assignment)));
      EdgeWriteSuffices(s, id, task);
    }
  }

  // A task somebody may resume unstarted still waits, with nothing reported.
  lemma UnstartedWaits(s: System, id: string)
    requires Inv(s) && id in s.edge && s.edge[id].fields.status == Assigned
    ensures Waiting(View(s, id)) && s.edge[id].fields == FRESH && id in s.cloud
  {
    assert TaskInv(View(s, id));
  }

  lemma CancelledResumeOverruns(s: System, step: Step)
    requires Inv(s) && ResumesUnstarted(s, step) && CancelledInPlace(s, step.id)
    ensures Inv(Next(s, step)) && Overrun(View(Next(s, step), step.id))
  {
    var id := step.id;
    UnstartedWaits(s, id);
    var task := Applied(s.edge[id], step.action, step.now);
    ViewOfEdgeWrite(s, id, task, id);
    ResumeOverruns(View(s, id), task, Envelope(s.upLast + 1, TaskStatus(id, task.fields, task.assignment)));
    EdgeWriteSuffices(s, id, task);
  }

  lemma DeliverDownKeeps(s: System)
    requires Inv(s)
    ensures Inv(Next(s, DeliverDown))
  {
    NumbersAfterDelivery(s, DeliverDown);
    if s.down != [] {
      forall id: string ensures TaskInv(View(Next(s, DeliverDown), id)) {
        assert TaskInv(View(s, id));
        ViewOfDeliverDown(s, id);
        OfPop(s.down, id);
        if s.down[0].msg.taskId == id {
          InvOnDown(View(s, id));
        }
      }
    }
  }

  // The head of the edge queue is always a report of a task the cloud knows.
  lemma ReportsAreKnown(s: System)
    requires Inv(s) && s.up != []
    ensures s.up[0].msg.TaskStatus? && s.up[0].msg.taskId in s.cloud
    ensures s.cloud[s.up[0].msg.taskId].edgeSyncSeq < s.up[0].number
  {
    var id := s.up[0].msg.taskId;
    assert TaskInv(View(s, id));
    OfPop(s.up, id);
  }

  lemma DeliverUpKeeps(s: System)
    requires Inv(s)
    ensures Inv(Next(s, DeliverUp))
  {
    NumbersAfterDelivery(s, DeliverUp);
    if s.up != [] {
      ReportsAreKnown(s);
      forall id: string ensures TaskInv(View(Next(s, DeliverUp), id)) {
        assert TaskInv(View(s, id));
        ViewOfDeliverUp(s, id);
        OfPop(s.up, id);
        if s.up[0].msg.taskId == id {
          InvOnUp(View(s, id));
        }
      }
    }
  }
}
