// What the two-way task sync guarantees over whole runs: agreement once quiet, conflicts, and the
// runs that fall outside the promise.
module TaskConvergence {
  import opened Prelude
  import opened TaskService
  import opened CloudEdgeTasks

  // Every transaction keeps the protocol invariant, except exactly the diverging resume.
  lemma StepKeepsInvariantExactly(s: System, step: Step)
    requires Inv(s)
    ensures Inv(Next(s, step)) <==> !Diverging(s, step)
  {
    match step
    case CloudCreate(_, _) => CloudWriteKeeps(s, step);
    case CloudCancel(_) => CloudWriteKeeps(s, step);
    case CloudReassign(_, _) => CloudWriteKeeps(s, step);
    case DeliverDown => DeliverDownKeeps(s);
    case DeliverUp => DeliverUpKeeps(s);
    case EdgeProgress(_, _, _) => EdgeWriteKeeps(s, step);
    case EdgeAct(id, action, now) =>
      if Diverging(s, step) {
        UnstartedWaits(s, id);
        ViewOfEdgeWrite(s, id, Applied(s.edge[id], action, now), id);
        assert View(Next(s, step), id).up[0].msg.fields.actualStart.None?;
        assert !TaskInv(View(Next(s, step), id));
      } else if ResumesUnstarted(s, step) {
        CancelledResumeOverruns(s, step);
      } else {
        EdgeWriteKeeps(s, step);
      }
  }

  // --- Main results -----------------------------------------------------------------

  lemma InitialInv()
    ensures Inv(INITIAL)
  {
  }

  lemma {:induction false} RunKeepsInv(s: System, steps: seq<Step>)
    requires Inv(s) && Proper(s, steps)
    ensures Inv(Execute(s, steps))
    decreases |steps|
  {
    if steps != [] {
      StepKeepsInvariantExactly(s, steps[0]);
      RunKeepsInv(Next(s, steps[0]), steps[1..]);
    }
  }

  // Both tiers know the same tasks, on the same shift, with the same edge-owned fields.
  ghost predicate Agreed(s: System) {
    && s.cloud.Keys == s.edge.Keys
    && forall id :: id in s.cloud ==>
         && s.cloud[id].assignment.shiftId == s.edge[id].assignment.shiftId
         && s.cloud[id].fields == s.edge[id].fields
  }

  lemma QuietInvAgrees(s: System)
    requires Inv(s) && s.down == [] && s.up == []
    ensures Agreed(s)
  {
    forall id: string
      ensures id in s.cloud <==> id in s.edge
      ensures id in s.cloud ==> s.cloud[id].assignment.shiftId == s.edge[id].assignment.shiftId
      ensures id in s.cloud ==> s.cloud[id].fields == s.edge[id].fields
    {
      assert TaskInv(View(s, id));
      assert View(s, id).down == [] && View(s, id).up == [];
    }
    assert forall id :: id in s.cloud.Keys <==> id in s.edge.Keys;
  }

  // A state some run without a diverging resume leads to.
  ghost predicate Reachable(s: System) {
    exists steps :: Proper(INITIAL, steps) && s == Execute(INITIAL, steps)
  }

  lemma ReachableInv(s: System)
    requires Reachable(s)
    ensures Inv(s)
  {
    var steps :| Proper(INITIAL, steps) && s == Execute(INITIAL, steps);
    InitialInv();
    RunKeepsInv(INITIAL, steps);
  }

  // Convergence: after any interleaving of admin requests, operator actions, progress and
  // deliveries, once both outboxes are empty the tiers agree.
  lemma Convergence(s: System)
    requires Reachable(s) && s.down == [] && s.up == []
    ensures Agreed(s)
  {
    ReachableInv(s);
    QuietInvAgrees(s);
  }

  // Deliver everything that is queued, cloud to edge first.
  function Drain(s: System): System
    decreases |s.down| + |s.up|
  {
    if s.down != [] then Drain(Next(s, DeliverDown))
    else if s.up != [] then Drain(Next(s, DeliverUp))
    else s
  }

  // From every reachable state, delivering what is queued is enough to agree.
  lemma {:induction false} DrainingConverges(s: System)
    requires Inv(s)
    ensures Agreed(Drain(s)) && Drain(s).down == [] && Drain(s).up == []
    decreases |s.down| + |s.up|
  {
    if s.down != [] {
      StepKeepsInvariantExactly(s, DeliverDown);
      DrainingConverges(Next(s, DeliverDown));
    } else if s.up != [] {
      StepKeepsInvariantExactly(s, DeliverUp);
      DrainingConverges(Next(s, DeliverUp));
    } else {
      QuietInvAgrees(s);
    }
  }

  // A task has at most one recorded conflict, and then the whole assignment was rolled back
  // to what the edge works to.
  lemma AtMostOneConflict(s: System, id: string)
    requires Reachable(s)
    ensures |ConflictsOf(s.conflicts, id)| <= 1
    ensures ConflictsOf(s.conflicts, id) != [] ==>
              id in s.cloud && id in s.edge && Started(s.edge[id]) && s.cloud[id].assignment == s.edge[id].assignment
  {
    ReachableInv(s);
    assert TaskInv(View(s, id));
  }

  // No cloud message ever alters a started edge task.
  lemma StartedTaskIsNotAltered(s: System, step: Step, id: string)
    requires id in s.edge && Started(s.edge[id]) && !ByOperator(step, id)
    ensures id in Next(s, step).edge && Next(s, step).edge[id] == s.edge[id]
  {
    if step.DeliverDown? && s.down != [] && s.down[0].msg.taskId == id {
      assert Get(s.edge, id) == Some(s.edge[id]);
      assert EdgeHandled(Get(s.edge, id), s.down[0]) == Get(s.edge, id);
    }
  }

  // An operator action on the task, or its progress.
  predicate ByOperator(step: Step, id: string) {
    (step.EdgeAct? || step.EdgeProgress?) && step.id == id
  }

  // From its start, and between two actions on it, a task row of the edge is constant, whatever
  // the cloud requests and in whatever order messages arrive.
  lemma {:induction false} StartedTaskIsConstant(s: System, steps: seq<Step>, id: string)
    requires id in s.edge && Started(s.edge[id]) && forall i :: 0 <= i < |steps| ==> !ByOperator(steps[i], id)
    ensures id in Execute(s, steps).edge && Execute(s, steps).edge[id] == s.edge[id]
    decreases |steps|
  {
    if steps != [] {
      StartedTaskIsNotAltered(s, steps[0], id);
      StartedTaskIsConstant(Next(s, steps[0]), steps[1..], id);
    }
  }

  // The edge has started the task, and its first report will find the cloud's copy cancelled or on
  // another shift.
  predicate ConflictDue(v: TaskView) {
    && Unreported(v)
    && (v.cloud.value.fields.status == Cancelled
        || v.cloud.value.assignment.shiftId != v.edge.value.assignment.shiftId)
  }

  // Cancelled counts as such, even when the task was moved as well; the start is the reported one.
  function DueConflict(v: TaskView, id: string): Conflict
    requires ConflictDue(v)
  {
    assert Running(v.up[0].msg.fields);
    var kind := if v.cloud.value.fields.status == Cancelled then CancelAfterStart else ReassignAfterStart;
    Conflict(id, kind, v.up[0].msg.fields.actualStart.value)
  }

  // Recorded conflicts plus the one still on its way: constant under deliveries.
  function ConflictsToCome(v: TaskView, id: string): seq<Conflict> {
    v.conflicts + if ConflictDue(v) then [DueConflict(v, id)] else []
  }

  lemma ToComeOnDown(v: TaskView, id: string)
    requires TaskInv(v) && v.down != []
    ensures var w := v.(edge := EdgeHandled(v.edge, v.down[0]), down := v.down[1..]);
            ConflictsToCome(w, id) == ConflictsToCome(v, id)
  {
    var w := v.(edge := EdgeHandled(v.edge, v.down[0]), down := v.down[1..]);
    if !Waiting(v) { assert w.edge == v.edge; }
  }

  lemma ToComeOnUp(v: TaskView, id: string)
    requires TaskInv(v) && v.up != [] && v.cloud.Some? && v.cloud.value.edgeSyncSeq < v.up[0].number
    requires v.up[0].msg.taskId == id
    ensures v.up[0].msg.TaskStatus?
    ensures ConflictsToCome(ReportHandled(v, v.up[0]).(up := v.up[1..]), id) == ConflictsToCome(v, id)
  {
    if Unreported(v) { assert ReportsOf(v.up, v.edge.value); }
  }

  lemma ToComeAfterDown(s: System, id: string)
    requires Inv(s) && s.down != []
    ensures ConflictsToCome(View(Next(s, DeliverDown), id), id) == ConflictsToCome(View(s, id), id)
  {
    assert TaskInv(View(s, id));
    ViewOfDeliverDown(s, id);
    OfPop(s.down, id);
    if s.down[0].msg.taskId == id { ToComeOnDown(View(s, id), id); }
  }

  lemma ToComeAfterUp(s: System, id: string)
    requires Inv(s) && s.up != []
    ensures ConflictsToCome(View(Next(s, DeliverUp), id), id) == ConflictsToCome(View(s, id), id)
  {
    assert TaskInv(View(s, id));
    ReportsAreKnown(s);
    ViewOfDeliverUp(s, id);
    OfPop(s.up, id);
    if s.up[0].msg.taskId == id { ToComeOnUp(View(s, id), id); }
  }

  // The next delivery of a drain: down first.
  function Delivered(s: System): System
    requires s.down != [] || s.up != []
  {
    Next(s, if s.down != [] then DeliverDown else DeliverUp)
  }

  lemma DeliveryShortens(s: System)
    requires Inv(s) && (s.down != [] || s.up != [])
    ensures |Delivered(s).down| + |Delivered(s).up| < |s.down| + |s.up| && Drain(s) == Drain(Delivered(s))
  {
  }

  lemma DeliveryKeepsToCome(s: System, id: string)
    requires Inv(s) && (s.down != [] || s.up != [])
    ensures Inv(Delivered(s)) && ConflictsToCome(View(Delivered(s), id), id) == ConflictsToCome(View(s, id), id)
  {
    if s.down != [] {
      DeliverDownKeeps(s);
      ToComeAfterDown(s, id);
    } else {
      DeliverUpKeeps(s);
      ToComeAfterUp(s, id);
    }
  }

  lemma {:induction false} DrainingRecords(s: System, id: string)
    requires Inv(s)
    ensures ConflictsToCome(View(Drain(s), id), id) == ConflictsToCome(View(s, id), id)
    decreases |s.down| + |s.up|
  {
    if s.down != [] || s.up != [] {
      DeliveryKeepsToCome(s, id);
      DeliveryShortens(s);
      DrainingRecords(Delivered(s), id);
    }
  }

  // Draining records a conflict for exactly the tasks with an undelivered start that the cloud has
  // cancelled or has on another shift: of the one kind or the other, with the first reported start.
  lemma ConflictRecordedExactly(s: System, id: string)
    requires Inv(s)
    ensures ConflictsOf(Drain(s).conflicts, id)
         == ConflictsOf(s.conflicts, id) + if ConflictDue(View(s, id)) then [DueConflict(View(s, id), id)] else []
  {
    DrainingRecords(s, id);
    DrainingConverges(s);
    assert View(Drain(s), id).up == [];
  }

  // The start that is, or will be, recorded for the task; no resume overtook it.
  predicate RecordsStart(v: TaskView, at: real) {
    && (Unreported(v) || Reported(v))
    && (forall i :: 0 <= i < |v.conflicts| ==> v.conflicts[i].edgeActualStart == at)
    && (Unreported(v) ==> v.up[0].msg.fields.actualStart == Some(at))
  }

  lemma StartOnUp(v: TaskView, at: real)
    requires TaskInv(v) && RecordsStart(v, at) && v.up != [] && v.cloud.value.edgeSyncSeq < v.up[0].number
    ensures v.up[0].msg.TaskStatus? && RecordsStart(ReportHandled(v, v.up[0]).(up := v.up[1..]), at)
  {
    var w := ReportHandled(v, v.up[0]).(up := v.up[1..]);
    assert ReportsOf(v.up, v.edge.value) && ReportsOf(w.up, v.edge.value);
    assert Reported(w);
  }

  lemma StartOnEdgeWrite(v: TaskView, at: real, task: EdgeTask, e: Envelope)
    requires RecordsStart(v, at) && task.assignment == v.edge.value.assignment && Running(task.fields)
    requires e.msg.TaskStatus? && e.msg.fields == task.fields && e.msg.assignment == task.assignment
    ensures RecordsStart(v.(edge := Some(task), up := v.up + [e]), at)
  {
    var w := v.(edge := Some(task), up := v.up + [e]);
    assert ReportsOf(w.up, task);
    assert if Reported(v) then Reported(w) else Unreported(w);
  }

  lemma StepKeepsStart(s: System, step: Step, id: string, at: real)
    requires Inv(s) && RecordsStart(View(s, id), at)
    ensures RecordsStart(View(Next(s, step), id), at)
  {
    match step
    case EdgeAct(other, action, now) =>
      if Next(s, step) != s { EdgeWriteKeepsStart(s, other, Applied(s.edge[other], action, now), id, at); }
    case EdgeProgress(other, quantity, revision) =>
      if Next(s, step) != s { EdgeWriteKeepsStart(s, other, Progressed(s.edge[other], quantity, revision), id, at); }
    case DeliverDown => DeliveryKeepsStart(s, step, id, at);
    case DeliverUp => DeliveryKeepsStart(s, step, id, at);
    case _ => CloudWriteKeepsStart(s, step, id, at);
  }

  lemma DeliveryKeepsStart(s: System, step: Step, id: string, at: real)
    requires Inv(s) && RecordsStart(View(s, id), at) && (step.DeliverDown? || step.DeliverUp?)
    ensures RecordsStart(View(Next(s, step), id), at)
  {
    assert TaskInv(View(s, id));
    if step.DeliverDown? && s.down != [] {
      ViewOfDeliverDown(s, id);
    } else if step.DeliverUp? && s.up != [] {
      ReportsAreKnown(s);
      ViewOfDeliverUp(s, id);
      OfPop(s.up, id);
      if s.up[0].msg.taskId == id { StartOnUp(View(s, id), at); }
    }
  }

  lemma CloudWriteKeepsStart(s: System, step: Step, id: string, at: real)
    requires RecordsStart(View(s, id), at) && (step.CloudCreate? || step.CloudCancel? || step.CloudReassign?)
    ensures RecordsStart(View(Next(s, step), id), at)
  {
    match step
    case CloudCreate(other, a) =>
      if Next(s, step) != s { ViewOfCloudWrite(s, other, CloudTask(a, FRESH, 0), TaskAssigned(other, a), id); }
    case CloudCancel(other) =>
      if Next(s, step) != s {
        ViewOfCloudWrite(s, other, s.cloud[other].(fields := s.cloud[other].fields.(status := Cancelled)),
                         TaskCancelled(other), id);
      }
    case CloudReassign(other, a) =>
      if Next(s, step) != s {
        ViewOfCloudWrite(s, other, s.cloud[other].(assignment := a), TaskReassigned(other, a), id);
      }
  }

  lemma EdgeWriteKeepsStart(s: System, other: string, task: EdgeTask, id: string, at: real)
    requires RecordsStart(View(s, id), at) && other in s.edge && task.assignment == s.edge[other].assignment
    requires Running(s.edge[other].fields) ==> Running(task.fields)
    ensures RecordsStart(View(EdgeWrite(s, other, task), id), at)
  {
    ViewOfEdgeWrite(s, other, task, id);
    if other == id {
      StartOnEdgeWrite(View(s, id), at, task,
                       Envelope(s.upLast + 1, TaskStatus(id, task.fields, task.assignment)));
    }
  }

  lemma {:induction false} RunKeepsStart(s: System, steps: seq<Step>, id: string, at: real)
    requires Inv(s) && RecordsStart(View(s, id), at) && Proper(s, steps)
    ensures RecordsStart(View(Execute(s, steps), id), at)
    decreases |steps|
  {
    if steps != [] {
      StepKeepsStart(s, steps[0], id, at);
      StepKeepsInvariantExactly(s, steps[0]);
      RunKeepsStart(Next(s, steps[0]), steps[1..], id, at);
    }
  }

  // The time of the last accepted start of the task, at being the one before the steps.
  function LastStart(s: System, steps: seq<Step>, id: string, at: real): real
    decreases |steps|
  {
    if steps == [] then at
    else
      var step := steps[0];
      var starts := step.EdgeAct? && step.id == id && step.action == Start && Next(s, step) != s;
      LastStart(Next(s, step), steps[1..], id, if starts then step.now else at)
  }

  lemma {:induction false} EdgeShowsLastStart(s: System, steps: seq<Step>, id: string, at: real)
    requires id in s.edge && s.edge[id].fields.actualStart == Some(at)
    ensures id in Execute(s, steps).edge
    ensures Execute(s, steps).edge[id].fields.actualStart == Some(LastStart(s, steps, id, at))
    decreases |steps|
  {
    if steps != [] {
      var step, t := steps[0], Next(s, steps[0]);
      if !ByOperator(step, id) {
        StartedTaskIsNotAltered(s, step, id);
        EdgeShowsLastStart(t, steps[1..], id, at);
      } else {
        assert id in t.edge && t.edge[id].fields.actualStart.Some?;
        if t != s { assert t.up == s.up + [t.up[|s.up|]] && t.up != s.up; }
        EdgeShowsLastStart(t, steps[1..], id, t.edge[id].fields.actualStart.value);
      }
    }
  }

  // The last progress accepted for the task, quantity being the one before the steps.
  function LastProgress(s: System, steps: seq<Step>, id: string, quantity: real): real
    decreases |steps|
  {
    if steps == [] then quantity
    else
      var step := steps[0];
      var moves := step.EdgeProgress? && step.id == id && id in s.edge && s.edge[id].fields.status == InProgress;
      LastProgress(Next(s, step), steps[1..], id, if moves then step.quantity else quantity)
  }

  // The edge shows the last progress reported by the operator; by Convergence the cloud does, too, once
  // everything is delivered.
  lemma {:induction false} EdgeShowsLastProgress(s: System, steps: seq<Step>, id: string)
    requires id in s.edge && Started(s.edge[id])
    ensures id in Execute(s, steps).edge
    ensures Execute(s, steps).edge[id].fields.completedQuantity
         == LastProgress(s, steps, id, s.edge[id].fields.completedQuantity)
    decreases |steps|
  {
    if steps != [] {
      var t := Next(s, steps[0]);
      if !ByOperator(steps[0], id) { StartedTaskIsNotAltered(s, steps[0], id); }
      assert id in t.edge && Started(t.edge[id]);
      EdgeShowsLastProgress(t, steps[1..], id);
    }
  }

  // Whatever follows the first start of a task, a conflict recorded for it carries the time of that
  // start, while the edge shows the last one: the two are the same exactly when the times are.
  lemma ConflictCarriesFirstStart(s: System, id: string, at: real, more: seq<Step>)
    requires Reachable(s) && id in s.edge && s.edge[id].fields.status == Assigned
    requires Proper(Next(s, EdgeAct(id, Start, at)), more)
    ensures var t := Execute(Next(s, EdgeAct(id, Start, at)), more);
            forall i :: 0 <= i < |ConflictsOf(t.conflicts, id)| ==>
              ConflictsOf(t.conflicts, id)[i].edgeActualStart == at
    ensures var s1 := Next(s, EdgeAct(id, Start, at));
            && id in Execute(s1, more).edge
            && Execute(s1, more).edge[id].fields.actualStart == Some(LastStart(s1, more, id, at))
  {
    ReachableInv(s);
    StepKeepsInvariantExactly(s, EdgeAct(id, Start, at));
    FirstStart(s, id, at);
    RunKeepsStart(Next(s, EdgeAct(id, Start, at)), more, id, at);
    EdgeShowsLastStart(Next(s, EdgeAct(id, Start, at)), more, id, at);
  }

  lemma FirstStart(s: System, id: string, at: real)
    requires Inv(s) && id in s.edge && s.edge[id].fields.status == Assigned
    ensures var t := Next(s, EdgeAct(id, Start, at));
            RecordsStart(View(t, id), at) && id in t.edge && t.edge[id].fields.actualStart == Some(at)
  {
    UnstartedWaits(s, id);
    var task := Applied(s.edge[id], Start, at);
    ViewOfEdgeWrite(s, id, task, id);
    StartIsUnreported(View(s, id), task, Envelope(s.upLast + 1, TaskStatus(id, task.fields, task.assignment)), at);
  }

  lemma StartIsUnreported(v: TaskView, task: EdgeTask, e: Envelope, at: real)
    requires v.cloud.Some? && v.cloud.value.fields in {FRESH, FRESH_CANCELLED} && v.up == [] && v.conflicts == []
    requires Running(task.fields) && task.fields.actualStart == Some(at)
    requires e.msg.TaskStatus? && e.msg.fields == task.fields && e.msg.assignment == task.assignment
    ensures RecordsStart(v.(edge := Some(task), up := v.up + [e]), at)
  {
    assert v.up + [e] == [e];
  }

  // --- What the code does not promise -----------------------------------------------

  // Nothing left to deliver, and the tiers differ.
  ghost predicate Split(s: System) {
    s.down == [] && s.up == [] && !Agreed(s)
  }

  // A run without a further diverging resume that ends so.
  ghost predicate SplitsBy(s: System, more: seq<Step>) {
    Proper(s, more) && Split(Execute(s, more))
  }

  // The deliveries of a drain.
  function DrainSteps(s: System): seq<Step>
    decreases |s.down| + |s.up|
  {
    if s.down != [] then [DeliverDown] + DrainSteps(Next(s, DeliverDown))
    else if s.up != [] then [DeliverUp] + DrainSteps(Next(s, DeliverUp))
    else []
  }

  // The task moves on the edge without an actual start, and the cloud has it on another shift.
  ghost predicate Apart(s: System, id: string) {
    && id in s.cloud && id in s.edge && Started(s.edge[id])
    && s.cloud[id].assignment.shiftId != s.edge[id].assignment.shiftId
    && forall i :: 0 <= i < |s.up| && s.up[i].msg.TaskStatus? && s.up[i].msg.taskId == id ==>
         s.up[i].msg.fields.actualStart.None?
  }

  lemma DeliveryKeepsApart(s: System, step: Step, id: string)
    requires Apart(s, id) && (step.DeliverDown? || step.DeliverUp?)
    ensures Apart(Next(s, step), id)
  {
    StartedTaskIsNotAltered(s, step, id);
  }

  lemma {:induction false} DrainStaysApart(s: System, id: string)
    requires Apart(s, id)
    ensures SplitsBy(s, DrainSteps(s))
    decreases |s.down| + |s.up|
  {
    if s.down != [] || s.up != [] {
      var step := if s.down != [] then DeliverDown else DeliverUp;
      DeliveryKeepsApart(s, step, id);
      DrainStaysApart(Next(s, step), id);
      assert DrainSteps(s) == [step] + DrainSteps(Next(s, step));
      assert DrainSteps(s)[1..] == DrainSteps(Next(s, step));
    }
  }

  // After a diverging resume some run ends apart: by draining, if the cloud already has another
  // shift; else by moving the task to one first.
  lemma DivergingSplits(s: System, step: Step) returns (more: seq<Step>)
    requires Inv(s) && Diverging(s, step)
    ensures SplitsBy(Next(s, step), more)
  {
    var t, id := Next(s, step), step.id;
    UnstartedWaits(s, id);
    OnlyReport(s, step);
    if s.cloud[id].assignment.shiftId != s.edge[id].assignment.shiftId {
      more := DrainSteps(t);
      DrainStaysApart(t, id);
    } else {
      var moved := CloudReassign(id, Assignment(s.cloud[id].assignment.shiftId + "'", ""));
      var u := Next(t, moved);
      assert Apart(u, id);
      DrainStaysApart(u, id);
      more := [moved] + DrainSteps(u);
      assert more[1..] == DrainSteps(u);
    }
  }

  // The resumed task is reported once, without an actual start.
  lemma OnlyReport(s: System, step: Step)
    requires Inv(s) && ResumesUnstarted(s, step)
    ensures var t := Next(s, step);
            forall i :: 0 <= i < |t.up| && t.up[i].msg.taskId == step.id ==>
              t.up[i].msg.TaskStatus? && t.up[i].msg.fields.actualStart.None?
  {
    UnstartedWaits(s, step.id);
    forall i | 0 <= i < |s.up| ensures s.up[i].msg.taskId != step.id { NoneOf(s.up, step.id, i); }
  }

  lemma {:induction false} NoneOf(q: seq<Envelope>, id: string, i: nat)
    requires i < |q| && Of(q, id) == []
    ensures q[i].msg.taskId != id
  {
    if i > 0 { NoneOf(q[1..], id, i - 1); }
  }

  // From any reachable state, a step lets the tiers end apart, with nothing left to deliver and no
  // further diverging resume, exactly when it resumes a task that never started and the cloud has
  // not cancelled it in place.
  lemma DivergesExactly(s: System, step: Step)
    requires Reachable(s)
    ensures (exists more :: SplitsBy(Next(s, step), more)) <==> Diverging(s, step)
  {
    ReachableInv(s);
    if Diverging(s, step) {
      var more := DivergingSplits(s, step);
    } else {
      StepKeepsInvariantExactly(s, step);
      forall more | Proper(Next(s, step), more) ensures !SplitsBy(Next(s, step), more) {
        RunKeepsInv(Next(s, step), more);
        var t := Execute(Next(s, step), more);
        if t.down == [] && t.up == [] { QuietInvAgrees(t); }
      }
    }
  }

  lemma CloudLeavesOverrun(s: System, step: Step, id: string)
    requires Overrun(View(s, id)) && (step.CloudCreate? || step.CloudCancel? || step.CloudReassign?)
    ensures Overrun(View(Next(s, step), id))
  {
    if Next(s, step) != s {
      assert step.id != id;
      match step
      case CloudCreate(other, a) => ViewOfCloudWrite(s, other, CloudTask(a, FRESH, 0), TaskAssigned(other, a), id);
      case CloudCancel(other) =>
        ViewOfCloudWrite(s, other, s.cloud[other].(fields := s.cloud[other].fields.(status := Cancelled)),
                         TaskCancelled(other), id);
      case CloudReassign(other, a) => ViewOfCloudWrite(s, other, s.cloud[other].(assignment := a),
                                                       TaskReassigned(other, a), id);
    }
  }

  lemma EdgeLeavesOverrun(s: System, step: Step, id: string)
    requires Overrun(View(s, id)) && (step.EdgeAct? || step.EdgeProgress?)
    ensures Overrun(View(Next(s, step), id))
  {
    if Next(s, step) != s {
      var task := if step.EdgeAct? then Applied(s.edge[step.id], step.action, step.now)
                  else Progressed(s.edge[step.id], step.quantity, step.revision);
      ViewOfEdgeWrite(s, step.id, task, id);
      if step.id == id {
        if step.EdgeAct? { ActKeepsRunning(s.edge[id], step.action, step.now); }
        OverrunOnEdgeWrite(View(s, id), task, Envelope(s.upLast + 1, TaskStatus(id, task.fields, task.assignment)));
      }
    }
  }

  lemma DownLeavesOverrun(s: System, id: string)
    requires Overrun(View(s, id))
    ensures Overrun(View(Next(s, DeliverDown), id))
  {
    if s.down != [] {
      ViewOfDeliverDown(s, id);
      OfPop(s.down, id);
    }
  }

  lemma UpLeavesOverrun(s: System, id: string)
    requires Inv(s) && Overrun(View(s, id))
    ensures Overrun(View(Next(s, DeliverUp), id))
  {
    if s.up != [] {
      ReportsAreKnown(s);
      ViewOfDeliverUp(s, id);
      OfPop(s.up, id);
      if s.up[0].msg.taskId == id { OverrunOnUp(View(s, id)); }
    }
  }

  lemma {:induction false} OverrunStays(s: System, steps: seq<Step>, id: string)
    requires Inv(s) && Overrun(View(s, id)) && Proper(s, steps)
    ensures Inv(Execute(s, steps)) && Overrun(View(Execute(s, steps), id))
    decreases |steps|
  {
    if steps != [] {
      StepKeepsInvariantExactly(s, steps[0]);
      match steps[0] {
        case CloudCreate(_, _) => CloudLeavesOverrun(s, steps[0], id);
        case CloudCancel(_) => CloudLeavesOverrun(s, steps[0], id);
        case CloudReassign(_, _) => CloudLeavesOverrun(s, steps[0], id);
        case EdgeAct(_, _, _) => EdgeLeavesOverrun(s, steps[0], id);
        case EdgeProgress(_, _, _) => EdgeLeavesOverrun(s, steps[0], id);
        case DeliverDown => DownLeavesOverrun(s, id);
        case DeliverUp => UpLeavesOverrun(s, id);
      }
      OverrunStays(Next(s, steps[0]), steps[1..], id);
    }
  }

  // The other faulty resume loses the cancel: whatever follows, no conflict is ever recorded for
  // the task, and once everything is delivered the cloud has it running, done or on hold.
  lemma CancelIsLost(s: System, step: Step, more: seq<Step>)
    requires Reachable(s) && ResumesUnstarted(s, step) && CancelledInPlace(s, step.id)
    requires Proper(Next(s, step), more)
    ensures var t := Execute(Next(s, step), more);
            && ConflictsOf(t.conflicts, step.id) == []
            && (t.up == [] ==> step.id in t.cloud && Moving(t.cloud[step.id].fields))
  {
    ReachableInv(s);
    CancelledResumeOverruns(s, step);
    OverrunStays(Next(s, step), more, step.id);
  }

  // The assignments agree, or the next report will make them.
  predicate WillAgree(v: TaskView) {
    v.cloud.Some? && v.edge.Some? && (ConflictDue(v) || v.cloud.value.assignment == v.edge.value.assignment)
  }

  lemma ReportKeepsWillAgree(v: TaskView)
    requires TaskInv(v) && v.up != [] && v.cloud.Some? && v.edge.Some? && v.cloud.value.edgeSyncSeq < v.up[0].number
    ensures v.up[0].msg.TaskStatus?
    ensures WillAgree(ReportHandled(v, v.up[0]).(up := v.up[1..])) <==> WillAgree(v)
  {
    if Unreported(v) { assert ReportsOf(v.up, v.edge.value); }
  }

  lemma DeliveryKeepsWillAgree(s: System, id: string)
    requires Inv(s) && (s.down != [] || s.up != []) && id in s.cloud && id in s.edge && Started(s.edge[id])
    ensures id in Delivered(s).cloud && id in Delivered(s).edge && Delivered(s).edge[id] == s.edge[id]
    ensures WillAgree(View(Delivered(s), id)) <==> WillAgree(View(s, id))
  {
    assert TaskInv(View(s, id));
    if s.down != [] {
      StartedTaskIsNotAltered(s, DeliverDown, id);
      ViewOfDeliverDown(s, id);
    } else {
      ReportsAreKnown(s);
      ViewOfDeliverUp(s, id);
      OfPop(s.up, id);
      if s.up[0].msg.taskId == id { ReportKeepsWillAgree(View(s, id)); }
    }
  }

  // Once everything is delivered the cloud has a started task under the edge's assignment exactly
  // when a conflict was due or it had it already. The conflict test looks at cancel and shift only,
  // so a change of plan that leaves the shift as it was is neither reported nor rolled back.
  lemma {:induction false} RollsBackExactly(s: System, id: string)
    requires Inv(s) && id in s.cloud && id in s.edge && Started(s.edge[id])
    ensures id in Drain(s).cloud && id in Drain(s).edge && Drain(s).edge[id] == s.edge[id]
    ensures Drain(s).cloud[id].assignment == s.edge[id].assignment
       <==> ConflictDue(View(s, id)) || s.cloud[id].assignment == s.edge[id].assignment
    decreases |s.down| + |s.up|
  {
    if s.down != [] || s.up != [] {
      DeliveryKeepsWillAgree(s, id);
      DeliveryKeepsToCome(s, id);
      DeliveryShortens(s);
      RollsBackExactly(Delivered(s), id);
    }
  }

  // The states of a task moved away and back while the edge starts it.
  function AwayAndBack(id: string, first: Assignment, away: Assignment, back: Assignment, at: real): seq<Step> {
    [CloudCreate(id, first), DeliverDown, EdgeAct(id, Start, at), CloudReassign(id, away), CloudReassign(id, back),
     DeliverDown, DeliverDown, DeliverUp]
  }

  // Such a run ends with everything delivered, no conflict recorded, and the cloud keeping the newer
  // plan that the edge never took over.
  lemma MovedAwayAndBackIsMissed(id: string, first: Assignment, away: Assignment, back: Assignment, at: real)
    requires away.shiftId != first.shiftId == back.shiftId
    ensures var s := Execute(INITIAL, AwayAndBack(id, first, away, back, at));
            && Reachable(s) && s.down == [] && s.up == [] && s.conflicts == []
            && id in s.cloud && id in s.edge && s.cloud[id].assignment == back && s.edge[id].assignment == first
  {
    var steps := AwayAndBack(id, first, away, back, at);
    var s3 := StartedOnEdge(id, first, at);
    assert steps == [CloudCreate(id, first), DeliverDown, EdgeAct(id, Start, at)] + steps[3..];
    ExecuteAppend(INITIAL, steps[..3], steps[3..]);
    var s4 := Next(s3, steps[3]);
    var s5 := Next(s4, steps[4]);
    assert s5.down == [Envelope(2, TaskReassigned(id, away)), Envelope(3, TaskReassigned(id, back))];
    ExecuteAt(s3, steps, 3);
    ExecuteAt(s4, steps, 4);
    assert steps[5..] == [DeliverDown, DeliverDown, DeliverUp];
    AwayAndBackDelivered(s5, id, first, away, back, s3.edge[id]);
    ProperWithoutResume(INITIAL, steps);
  }

  // Created, delivered, started, with the report on its way.
  lemma StartedOnEdge(id: string, first: Assignment, at: real) returns (s: System)
    ensures s == Execute(INITIAL, [CloudCreate(id, first), DeliverDown, EdgeAct(id, Start, at)])
    ensures s.down == [] && s.downLast == 1 && s.conflicts == [] && s.cloud == map[id := CloudTask(first, FRESH, 0)]
    ensures id in s.edge && s.edge[id].assignment == first && Running(s.edge[id].fields)
    ensures s.up == [Envelope(1, TaskStatus(id, s.edge[id].fields, first))]
  {
    var steps := [CloudCreate(id, first), DeliverDown, EdgeAct(id, Start, at)];
    var s1 := Next(INITIAL, steps[0]);
    assert s1.down == [Envelope(1, TaskAssigned(id, first))];
    var s2 := Next(s1, steps[1]);
    assert s2.edge == map[id := EdgeTask(first, FRESH, None, 1)] && s2.down == [];
    s := Next(s2, steps[2]);
    ExecuteAt(INITIAL, steps, 0);
    ExecuteAt(s1, steps, 1);
    ExecuteAt(s2, steps, 2);
    assert steps[0..] == steps && steps[3..] == [];
  }

  lemma {:induction false} ExecuteAppend(s: System, steps: seq<Step>, more: seq<Step>)
    ensures Execute(s, steps + more) == Execute(Execute(s, steps), more)
    decreases |steps|
  {
    if steps == [] {
      assert steps + more == more;
    } else {
      assert (steps + more)[1..] == steps[1..] + more;
      ExecuteAppend(Next(s, steps[0]), steps[1..], more);
    }
  }

  lemma AwayAndBackDelivered(s: System, id: string, first: Assignment, away: Assignment, back: Assignment,
                             task: EdgeTask)
    requires s.down == [Envelope(2, TaskReassigned(id, away)), Envelope(3, TaskReassigned(id, back))]
    requires s.up == [Envelope(1, TaskStatus(id, task.fields, first))] && s.conflicts == []
    requires id in s.edge && s.edge[id] == task && Started(task) && task.assignment == first
    requires id in s.cloud && s.cloud[id] == CloudTask(back, FRESH, 0) && back.shiftId == first.shiftId
    ensures var t := Execute(s, [DeliverDown, DeliverDown, DeliverUp]);
            && t.down == [] && t.up == [] && t.conflicts == []
            && id in t.cloud && id in t.edge && t.cloud[id].assignment == back && t.edge[id].assignment == first
  {
    var steps := [DeliverDown, DeliverDown, DeliverUp];
    var t1 := Next(s, DeliverDown);
    StartedTaskIsNotAltered(s, DeliverDown, id);
    var t2 := Next(t1, DeliverDown);
    StartedTaskIsNotAltered(t1, DeliverDown, id);
    assert t2.down == [] && t2.up == s.up && t2.cloud == s.cloud && t2.conflicts == [];
    var t3 := Next(t2, DeliverUp);
    assert t3.conflicts == [] + [];
    assert steps[0..] == steps && steps[3..] == [];
    ExecuteAt(s, steps, 0);
    ExecuteAt(t1, steps, 1);
    ExecuteAt(t2, steps, 2);
  }

  lemma {:induction false} ProperWithoutResume(s: System, steps: seq<Step>)
    requires forall i :: 0 <= i < |steps| ==> !steps[i].EdgeAct? || steps[i].action !in {Resume, Unblock}
    ensures Proper(s, steps)
    decreases |steps|
  {
    if steps != [] {
      assert !steps[0].EdgeAct? || steps[0].action !in {Resume, Unblock};
      ProperWithoutResume(Next(s, steps[0]), steps[1..]);
    }
  }

  lemma ExecuteAt(s: System, steps: seq<Step>, k: nat)
    requires k < |steps|
    ensures Execute(s, steps[k..]) == Execute(Next(s, steps[k]), steps[k + 1..])
  {
    assert steps[k..][1..] == steps[k + 1..];
  }
}
