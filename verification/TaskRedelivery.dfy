// Task messages that arrive again or out of order: what the sequence guards of the two handlers keep
// (backend/app/sync/handlers/edge_to_cloud.py, cloud_to_edge.py).
module TaskRedelivery {
  import opened Prelude
  import opened TaskService
  import opened CloudEdgeTasks

  // --- Reports in the cloud -------------------------------------------------------------

  // A task after some reports about it, in any order, repeats included.
  function AfterReports(task: CloudTask, q: seq<Envelope>): CloudTask
    requires forall i :: 0 <= i < |q| ==> q[i].msg.TaskStatus?
  {
    if q == [] then task
    else
      var e := q[|q| - 1];
      StatusApplied(AfterReports(task, q[..|q| - 1]), e.msg.fields, e.msg.assignment, e.number)
  }

  // Envelope i has the highest number of all and is the first one with it.
  ghost predicate IsNewest(q: seq<Envelope>, i: nat) {
    && i < |q| && (forall j :: 0 <= j < |q| ==> q[j].number <= q[i].number)
    && forall j :: 0 <= j < i ==> q[j].number < q[i].number
  }

  ghost predicate NoneNewer(q: seq<Envelope>, mark: int) {
    forall i :: 0 <= i < |q| ==> q[i].number <= mark
  }

  lemma NewestOneMore(before: seq<Envelope>, e: Envelope, i: nat)
    requires IsNewest(before, i)
    ensures IsNewest(before + [e], if e.number > before[i].number then |before| else i)
  {
  }

  lemma FirstNewest(before: seq<Envelope>, e: Envelope, mark: int)
    requires NoneNewer(before, mark)
    ensures e.number > mark ==> IsNewest(before + [e], |before|)
    ensures NoneNewer(before + [e], mark) <==> e.number <= mark
  {
    assert (before + [e])[|before|] == e;
  }

  lemma StillNewer(before: seq<Envelope>, e: Envelope, mark: int)
    requires !NoneNewer(before, mark)
    ensures !NoneNewer(before + [e], mark)
  {
    var k :| 0 <= k < |before| && before[k].number > mark;
    assert (before + [e])[k] == before[k];
  }

  // t shows report i.
  predicate ShowsReport(t: CloudTask, q: seq<Envelope>, i: nat) {
    i < |q| && q[i].msg.TaskStatus? && t.fields == q[i].msg.fields && t.edgeSyncSeq == q[i].number
  }

  // In whatever order reports arrive, the task ends with the fields of the newest one, unless it had
  // a newer one before; then nothing changes.
  lemma {:induction false} NewestReportWins(task: CloudTask, q: seq<Envelope>)
    requires forall i :: 0 <= i < |q| ==> q[i].msg.TaskStatus?
    ensures NoneNewer(q, task.edgeSyncSeq) ==> AfterReports(task, q) == task
    ensures !NoneNewer(q, task.edgeSyncSeq) ==>
              exists i: nat :: IsNewest(q, i) && ShowsReport(AfterReports(task, q), q, i)
  {
    if q != [] {
      var before, e := q[..|q| - 1], q[|q| - 1];
      NewestReportWins(task, before);
      OneMoreReport(task, before, e);
      assert q == before + [e];
    }
  }

  lemma OneMoreReport(task: CloudTask, before: seq<Envelope>, e: Envelope)
    requires e.msg.TaskStatus? && forall i :: 0 <= i < |before| ==> before[i].msg.TaskStatus?
    requires NoneNewer(before, task.edgeSyncSeq) ==> AfterReports(task, before) == task
    requires !NoneNewer(before, task.edgeSyncSeq) ==>
               exists i: nat :: IsNewest(before, i) && ShowsReport(AfterReports(task, before), before, i)
    ensures var q := before + [e];
            && (NoneNewer(q, task.edgeSyncSeq) ==> AfterReports(task, q) == task)
            && (!NoneNewer(q, task.edgeSyncSeq) ==>
                  exists i: nat :: IsNewest(q, i) && ShowsReport(AfterReports(task, q), q, i))
  {
    var q, u := before + [e], AfterReports(task, before);
    assert q[..|q| - 1] == before && q[|q| - 1] == e;
    assert AfterReports(task, q) == StatusApplied(u, e.msg.fields, e.msg.assignment, e.number);
    if NoneNewer(before, task.edgeSyncSeq) {
      FirstNewest(before, e, task.edgeSyncSeq);
      if e.number > task.edgeSyncSeq { assert ShowsReport(AfterReports(task, q), q, |before|); }
    } else {
      StillNewer(before, e, task.edgeSyncSeq);
      var i: nat :| IsNewest(before, i) && ShowsReport(u, before, i);
      NewestOneMore(before, e, i);
      assert ShowsReport(AfterReports(task, q), q, if e.number > before[i].number then |before| else i);
    }
  }

  // --- Cloud messages on the edge -------------------------------------------------------

  // The message has nothing left to do to the task.
  predicate IsSpent(task: Option<EdgeTask>, e: Envelope) {
    task.Some? && (Started(task.value) || task.value.syncSeq >= e.number || e.msg.TaskStatus?)
  }

  lemma SpentAfterHandling(task: EdgeTask, e: Envelope)
    ensures IsSpent(EdgeHandled(Some(task), e), e)
  {
  }

  lemma {:induction false} StaysSpent(task: Option<EdgeTask>, q: seq<Envelope>, e: Envelope)
    requires IsSpent(task, e)
    ensures IsSpent(Replay(task, q), e)
    decreases |q|
  {
    if q != [] { StaysSpent(EdgeHandled(task, q[0]), q[1..], e); }
  }

  // A message delivered again to a task that is there changes nothing, whatever came in between.
  lemma RepeatChangesNothing(task: EdgeTask, e: Envelope, between: seq<Envelope>)
    ensures var t := Replay(EdgeHandled(Some(task), e), between); EdgeHandled(t, e) == t
  {
    SpentAfterHandling(task, e);
    StaysSpent(EdgeHandled(Some(task), e), between, e);
  }

  predicate IsAssignment(e: Envelope) { e.msg.TaskAssigned? || e.msg.TaskReassigned? }

  // t is assigned as message i says.
  predicate ShowsAssignment(t: EdgeTask, q: seq<Envelope>, i: nat) {
    i < |q| && IsAssignment(q[i]) && t.assignment == q[i].msg.assignment && t.syncSeq == q[i].number
  }

  // What some assignments, in this order, leave of an unstarted task.
  ghost predicate AssignedBy(task: EdgeTask, q: seq<Envelope>, t: Option<EdgeTask>) {
    && t.Some? && !Started(t.value) && t.value.fields == task.fields
    && (NoneNewer(q, task.syncSeq) ==> t == Some(task))
    && (!NoneNewer(q, task.syncSeq) ==> exists i: nat :: IsNewest(q, i) && ShowsAssignment(t.value, q, i))
  }

  // A task nobody has started ends under the newest assignment, in whatever order they arrive.
  lemma {:induction false} NewestAssignmentWins(task: EdgeTask, q: seq<Envelope>)
    requires !Started(task) && forall i :: 0 <= i < |q| ==> IsAssignment(q[i])
    ensures AssignedBy(task, q, Replay(Some(task), q))
    decreases |q|
  {
    if q != [] {
      var before, e := q[..|q| - 1], q[|q| - 1];
      assert q == before + [e];
      NewestAssignmentWins(task, before);
      ReplayAppend(Some(task), before, e);
      OneMoreAssignment(task, before, e, Replay(Some(task), before));
    }
  }

  lemma OneMoreAssignment(task: EdgeTask, before: seq<Envelope>, e: Envelope, u: Option<EdgeTask>)
    requires IsAssignment(e) && AssignedBy(task, before, u)
    ensures AssignedBy(task, before + [e], EdgeHandled(u, e))
  {
    var q, t := before + [e], EdgeHandled(u, e).value;
    if NoneNewer(before, task.syncSeq) {
      FirstNewest(before, e, task.syncSeq);
      if e.number > task.syncSeq { assert ShowsAssignment(t, q, |before|); }
    } else {
      StillNewer(before, e, task.syncSeq);
      var i: nat :| IsNewest(before, i) && ShowsAssignment(u.value, before, i);
      NewestOneMore(before, e, i);
      assert ShowsAssignment(t, q, if e.number > before[i].number then |before| else i);
    }
  }
}
