// Task lifecycle on the edge (backend/app/edge/tasks/service.py) and the working-time
// formula of the ETA revision (backend/app/edge/eta/revision.py).
// Timestamps are reals in minutes.
module TaskService {
  import opened Prelude

  datatype Status = Assigned | InProgress | Paused | Blocked | Done | Cancelled

  // Other(name) stands for any action name outside the six known ones.
  datatype Action = Start | Pause | Resume | Block | Unblock | Complete | Other(name: string)

  // The fields the cloud sets at assignment: the shift, and everything else (task type,
  // quantities, schedule, estimate) as one opaque plan.
  datatype Assignment = Assignment(shiftId: string, plan: string)

  datatype Revision = Revision(minutes: real, at: real, reason: string)

  // The fields the edge owns once the task starts.
  datatype EdgeFields = EdgeFields(
    status: Status,
    completedQuantity: real,
    actualStart: Option<real>,
    actualEnd: Option<real>,
    pausedMinutes: real,
    blockedMinutes: real,
    revision: Option<Revision>)

  datatype EdgeTask = EdgeTask(
    assignment: Assignment,
    fields: EdgeFields,
    holdStartedAt: Option<real>,
    syncSeq: int)

  datatype ActionError = UnknownAction | InvalidTransition(current: Status, action: Action)

  const FRESH := EdgeFields(Assigned, 0.0, None, None, 0.0, 0.0, None)

  function TargetStatus(action: Action): Option<Status> {
    match action
    case Start => Some(InProgress)
    case Pause => Some(Paused)
    case Resume => Some(InProgress)
    case Block => Some(Blocked)
    case Unblock => Some(InProgress)
    case Complete => Some(Done)
    case Other(_) => None
  }

  // The transition table of the code: it looks at the target status only.
  predicate Allowed(current: Status, target: Status) {
    match current
    case Assigned => target == InProgress
    case InProgress => target in {Paused, Blocked, Done}
    case Paused => target == InProgress
    case Blocked => target == InProgress
    case Done => false
    case Cancelled => false
  }

  predicate Accepts(current: Status, action: Action) {
    TargetStatus(action).Some? && Allowed(current, TargetStatus(action).value)
  }

  function HeldMinutes(holdStartedAt: Option<real>, now: real): real {
    if holdStartedAt.None? then 0.0 else Max(0.0, now - holdStartedAt.value)
  }

  // The task after an accepted action.
  function Applied(t: EdgeTask, action: Action, now: real): EdgeTask
    requires Accepts(t.fields.status, action)
  {
    var held := HeldMinutes(t.holdStartedAt, now);
    var f := t.fields.(status := TargetStatus(action).value);
    match action
    case Start => t.(fields := f.(actualStart := Some(now)))
    case Pause => t.(fields := f, holdStartedAt := Some(now))
    case Block => t.(fields := f, holdStartedAt := Some(now))
    case Complete => t.(fields := f.(actualEnd := Some(now)))
    case _ =>
      t.(fields := if t.fields.status == Paused then f.(pausedMinutes := f.pausedMinutes + held)
                   else f.(blockedMinutes := f.blockedMinutes + held),
         holdStartedAt := None)
  }

  // A rejected action leaves the task as it is.
  function Attempt(t: EdgeTask, action: Action, now: real): EdgeTask {
    if Accepts(t.fields.status, action) then Applied(t, action, now) else t
  }

  // Wall span since the start, less the closed pause and block periods, never below zero.
  function ElapsedWorkingMinutes(t: EdgeTask, now: real): real {
    if t.fields.actualStart.None? then 0.0
    else Max(0.0, now - t.fields.actualStart.value - t.fields.pausedMinutes - t.fields.blockedMinutes)
  }

  // The database row the service updates in place.
  class TaskRow {
    const assignment: Assignment
    const syncSeq: int
    var status: Status
    var completedQuantity: real
    var actualStart: Option<real>
    var actualEnd: Option<real>
    var holdStartedAt: Option<real>
    var pausedMinutes: real
    var blockedMinutes: real
    var revision: Option<Revision>

    constructor (t: EdgeTask)
      ensures View() == t
    {
      assignment, syncSeq := t.assignment, t.syncSeq;
      status, completedQuantity := t.fields.status, t.fields.completedQuantity;
      actualStart, actualEnd := t.fields.actualStart, t.fields.actualEnd;
      holdStartedAt := t.holdStartedAt;
      pausedMinutes, blockedMinutes := t.fields.pausedMinutes, t.fields.blockedMinutes;
      revision := t.fields.revision;
    }

    ghost function View(): EdgeTask
      reads this
    {
      EdgeTask(assignment,
               EdgeFields(status, completedQuantity, actualStart, actualEnd, pausedMinutes, blockedMinutes, revision),
               holdStartedAt, syncSeq)
    }

    method ApplyAction(action: Action, now: real) returns (error: Option<ActionError>)
      modifies this
      ensures error.None? <==> Accepts(old(status), action)
      ensures error.None? <==>
                || (action in {Start, Resume, Unblock} && old(status) in {Assigned, Paused, Blocked})
                || (action in {Pause, Block, Complete} && old(status) == InProgress)
      ensures error == Some(UnknownAction) <==> action.Other?
      ensures View() == Attempt(old(View()), action, now)
    {
      var target := TargetStatus(action);
      if target.None? {
        return Some(UnknownAction);
      }
      if !Allowed(status, target.value) {
        return Some(InvalidTransition(status, action));
      }
      if action == Start {
        actualStart := Some(now);
      } else if action == Pause || action == Block {
        holdStartedAt := Some(now);
      } else if action == Resume || action == Unblock {
        var held := HeldMinutes(holdStartedAt, now);
        if status == Paused {
          pausedMinutes := pausedMinutes + held;
        } else {
          blockedMinutes := blockedMinutes + held;
        }
        holdStartedAt := None;
      } else {
        actualEnd := Some(now);
      }
      status := target.value;
      error := None;
    }
  }

  // --- Where the minutes go ---------------------------------------------------------

  datatype Event = Event(action: Action, at: real)

  function Run(assignment: Assignment, events: seq<Event>): EdgeTask {
    if events == [] then EdgeTask(assignment, FRESH, None, 0)
    else
      var last := events[|events| - 1];
      Attempt(Run(assignment, events[..|events| - 1]), last.action, last.at)
  }

  // Minutes spent in a status up to now, read off the status history alone.
  function TimeIn(status: Status, assignment: Assignment, events: seq<Event>, now: real): real {
    if events == [] then 0.0
    else
      var last := events[|events| - 1];
      TimeIn(status, assignment, events[..|events| - 1], last.at)
      + if Run(assignment, events).fields.status == status then now - last.at else 0.0
  }

  predicate NonDecreasing(events: seq<Event>) {
    forall i, j :: 0 <= i < j < |events| ==> events[i].at <= events[j].at
  }

  // The accepted actions that are missing from the documented table and that do not close
  // the books: a second start while on hold, and resuming a task that never started.
  predicate Harmful(current: Status, action: Action) {
    || (action == Start && current in {Paused, Blocked})
    || (action in {Resume, Unblock} && current == Assigned)
  }

  ghost predicate NoHarm(assignment: Assignment, events: seq<Event>) {
    forall k :: 0 <= k < |events| ==> !Harmful(Run(assignment, events[..k]).fields.status, events[k].action)
  }

  // What must hold of a task's timestamps for its minutes to add up.
  predicate Bookkept(t: EdgeTask) {
    && (t.fields.actualStart.Some? <==> t.fields.status in {InProgress, Paused, Blocked, Done})
    && (t.fields.actualEnd.Some? <==> t.fields.status == Done)
    && (t.holdStartedAt.Some? <==> t.fields.status in {Paused, Blocked})
  }

  // An accepted action keeps the books exactly when it is not one of the harmful ones.
  lemma BookkeepingExactly(t: EdgeTask, action: Action, now: real)
    requires Bookkept(t) && Accepts(t.fields.status, action)
    ensures Bookkept(Applied(t, action, now)) <==> !Harmful(t.fields.status, action)
  {
    match action
    case Start => assert Applied(t, action, now).fields.status == InProgress;
    case Pause =>
    case Block =>
    case Complete =>
    case Resume => assert Applied(t, action, now).holdStartedAt == None;
    case Unblock => assert Applied(t, action, now).holdStartedAt == None;
  }

  // Length of the pause or block that is still open.
  function OpenHold(t: EdgeTask, now: real): real {
    if t.holdStartedAt.Some? then now - t.holdStartedAt.value else 0.0
  }

  // The span counted for a task: up to its end once finished, up to now before that.
  function SpanEnd(t: EdgeTask, now: real): real {
    if t.fields.actualEnd.Some? then t.fields.actualEnd.value else now
  }

  // The ledger: every minute since the start is in exactly one of three accounts.
  predicate Ledger(t: EdgeTask, worked: real, paused: real, blocked: real, now: real) {
    && Bookkept(t)
    && t.fields.status != Cancelled
    && worked >= 0.0 && t.fields.pausedMinutes >= 0.0 && t.fields.blockedMinutes >= 0.0 && OpenHold(t, now) >= 0.0
    && paused == t.fields.pausedMinutes + (if t.fields.status == Paused then OpenHold(t, now) else 0.0)
    && blocked == t.fields.blockedMinutes + (if t.fields.status == Blocked then OpenHold(t, now) else 0.0)
    && (t.fields.actualStart.None? ==> worked == paused == blocked == 0.0)
    && (t.fields.actualStart.Some? ==> worked + paused + blocked == SpanEnd(t, now) - t.fields.actualStart.value)
  }

  function In(status: Status, t: EdgeTask, minutes: real): real {
    if t.fields.status == status then minutes else 0.0
  }

  lemma LedgerOverTime(t: EdgeTask, worked: real, paused: real, blocked: real, now: real, later: real)
    requires Ledger(t, worked, paused, blocked, now) && now <= later
    ensures Ledger(t, worked + In(InProgress, t, later - now), paused + In(Paused, t, later - now),
                   blocked + In(Blocked, t, later - now), later)
  {
  }

  lemma LedgerOverAction(t: EdgeTask, worked: real, paused: real, blocked: real, now: real, action: Action)
    requires Ledger(t, worked, paused, blocked, now) && !Harmful(t.fields.status, action)
    ensures Ledger(Attempt(t, action, now), worked, paused, blocked, now)
  {
    if Accepts(t.fields.status, action) {
      BookkeepingExactly(t, action, now);
    }
  }

  // Conservation: started span = working + paused + blocked, for every run that avoids the
  // harmful actions, on a clock that never goes back.
  lemma {:induction false} TimeIsConserved(assignment: Assignment, events: seq<Event>, now: real)
    requires NonDecreasing(events) && NoHarm(assignment, events)
    requires events != [] ==> events[|events| - 1].at <= now
    ensures Ledger(Run(assignment, events), TimeIn(InProgress, assignment, events, now),
                   TimeIn(Paused, assignment, events, now), TimeIn(Blocked, assignment, events, now), now)
  {
    if events != [] {
      var n := |events| - 1;
      var before, last := events[..n], events[n];
      assert forall k :: 0 <= k < n ==> before[..k] == events[..k];
      TimeIsConserved(assignment, before, last.at);
      var t := Run(assignment, before);
      var worked := TimeIn(InProgress, assignment, before, last.at);
      var paused := TimeIn(Paused, assignment, before, last.at);
      var blocked := TimeIn(Blocked, assignment, before, last.at);
      assert !Harmful(t.fields.status, last.action) by { assert events[..n] == before; }
      LedgerOverAction(t, worked, paused, blocked, last.at, last.action);
      LedgerOverTime(Run(assignment, events), worked, paused, blocked, last.at, now);
    }
  }

  // Working minutes are the in-progress minutes: while in progress now, and for a finished
  // task at its end. On hold the open pause or block still counts as working time.
  lemma WorkingMinutesAreInProgressMinutes(assignment: Assignment, events: seq<Event>, now: real)
    requires NonDecreasing(events) && NoHarm(assignment, events)
    requires events != [] ==> events[|events| - 1].at <= now
    ensures var t := Run(assignment, events);
            ElapsedWorkingMinutes(t, SpanEnd(t, now)) == TimeIn(InProgress, assignment, events, now) + OpenHold(t, now)
    ensures Run(assignment, events).fields.status in {InProgress, Done} ==>
              OpenHold(Run(assignment, events), now) == 0.0
  {
    TimeIsConserved(assignment, events, now);
  }

  // --- What the undocumented transitions cost ---------------------------------------

  // The span the task's timestamps account for.
  function Span(t: EdgeTask, now: real): real {
    if t.fields.actualStart.None? then 0.0 else SpanEnd(t, now) - t.fields.actualStart.value
  }

  // A second start on hold drops every minute worked, paused and blocked so far; the minutes still
  // add up exactly when the task was started at that very moment.
  lemma SecondStartLosesExactly(t: EdgeTask, worked: real, paused: real, blocked: real, now: real)
    requires Ledger(t, worked, paused, blocked, now) && t.fields.status in {Paused, Blocked}
    ensures Accepts(t.fields.status, Start)
    ensures var u := Applied(t, Start, now);
            && Span(u, now) == ElapsedWorkingMinutes(u, now) == 0.0
            && worked + paused + blocked - Span(u, now) == now - t.fields.actualStart.value
            && (Span(u, now) == worked + paused + blocked <==> now == t.fields.actualStart.value)
  {
    assert Applied(t, Start, now).fields.actualEnd.None?;
  }

  // From then on the formula counts from the second start and still takes off the pauses and blocks
  // of before. Its clamp fires exactly until these are made up for, and what it shows is the time
  // worked exactly when there was nothing to lose.
  lemma SecondStartShowsTooLittle(t: EdgeTask, worked: real, paused: real, blocked: real, now: real, later: real)
    requires Ledger(t, worked, paused, blocked, now) && t.fields.status in {Paused, Blocked} && now <= later
    ensures var u := Applied(t, Start, now);
            var shown, held := ElapsedWorkingMinutes(u, later), t.fields.pausedMinutes + t.fields.blockedMinutes;
            && (Span(u, later) - held < 0.0 <==> later < now + held)
            && shown == (if later < now + held then 0.0 else later - now - held)
            && (shown == worked + (later - now) <==> worked == 0.0 && (held == 0.0 || later == now))
  {
    assert Applied(t, Start, now).fields.actualEnd.None?;
  }

  // When the task left the assigned status: its first accepted action.
  function FirstLeft(assignment: Assignment, events: seq<Event>): Option<real> {
    if events == [] then None
    else
      var before, last := events[..|events| - 1], events[|events| - 1];
      if FirstLeft(assignment, before).Some? then FirstLeft(assignment, before)
      else if Accepts(Run(assignment, before).fields.status, last.action) then Some(last.at)
      else None
  }

  // Minutes in progress, paused and blocked, read off the status history.
  function TimeUsed(assignment: Assignment, events: seq<Event>, now: real): real {
    TimeIn(InProgress, assignment, events, now) + TimeIn(Paused, assignment, events, now)
    + TimeIn(Blocked, assignment, events, now)
  }

  // The status and the timestamps of a task after any run.
  ghost predicate Dated(assignment: Assignment, events: seq<Event>) {
    var f, first := Run(assignment, events).fields, FirstLeft(assignment, events);
    && f.status != Cancelled && (first.None? <==> f.status == Assigned)
    && (f.actualEnd.Some? <==> f.status == Done)
    && (f.actualStart.Some? ==> first.Some? && first.value <= f.actualStart.value)
    && (first.Some? ==> events != [] && first.value <= events[|events| - 1].at)
  }

  lemma {:induction false} RunIsDated(assignment: Assignment, events: seq<Event>)
    requires NonDecreasing(events)
    ensures Dated(assignment, events)
  {
    if events != [] { RunIsDated(assignment, events[..|events| - 1]); }
  }

  lemma {:induction false} TimeUsedIsSinceFirst(assignment: Assignment, events: seq<Event>, now: real)
    requires NonDecreasing(events)
    ensures var t, first := Run(assignment, events), FirstLeft(assignment, events);
            TimeUsed(assignment, events, now) == if first.None? then 0.0 else SpanEnd(t, now) - first.value
  {
    if events != [] {
      var before, last := events[..|events| - 1], events[|events| - 1];
      TimeUsedIsSinceFirst(assignment, before, last.at);
      RunIsDated(assignment, before);
    }
  }

  // For every run, harmful actions included, on a clock that does not go back: the minutes the
  // timestamps miss are those between the task's first accepted action and its recorded start (or
  // all of them while it has none), and they are none exactly when the two coincide.
  lemma MinutesLostExactly(assignment: Assignment, events: seq<Event>, now: real)
    requires NonDecreasing(events)
    ensures var t, first := Run(assignment, events), FirstLeft(assignment, events);
            var lost := TimeUsed(assignment, events, now) - Span(t, now);
            if first.None? then lost == 0.0
            else if t.fields.actualStart.None?
            then lost == SpanEnd(t, now) - first.value && ElapsedWorkingMinutes(t, now) == 0.0
            else && lost == t.fields.actualStart.value - first.value >= 0.0
                 && (lost == 0.0 <==> t.fields.actualStart == first)
  {
    RunIsDated(assignment, events);
    TimeUsedIsSinceFirst(assignment, events, now);
  }

  predicate NeverStarts(events: seq<Event>) {
    forall i :: 0 <= i < |events| ==> events[i].action != Start
  }

  // A task set going by `resume` or `unblock` shows no working time, however long it is in
  // progress, until somebody starts it.
  lemma {:induction false} ResumedUnstartedShowsNothing(assignment: Assignment, events: seq<Event>, now: real)
    requires NeverStarts(events)
    ensures Run(assignment, events).fields.actualStart.None?
            && ElapsedWorkingMinutes(Run(assignment, events), now) == 0.0
    ensures events != [] && events[0].action in {Resume, Unblock} ==> Run(assignment, events).fields.status != Assigned
  {
    if events != [] {
      var before := events[..|events| - 1];
      ResumedUnstartedShowsNothing(assignment, before, now);
      if |events| == 1 {
        assert before == [];
        assert Run(assignment, before).fields.status == Assigned;
      }
    }
  }

  // --- The same, told from the actions alone ----------------------------------------

  // Which action may follow the last accepted one.
  predicate MayFollow(last: Option<Action>, action: Action) {
    match action
    case Start => last.None? || last.value in {Pause, Block}
    case Resume => last.None? || last.value in {Pause, Block}
    case Unblock => last.None? || last.value in {Pause, Block}
    case Pause => last.Some? && last.value in {Start, Resume, Unblock}
    case Block => last.Some? && last.value in {Start, Resume, Unblock}
    case Complete => last.Some? && last.value in {Start, Resume, Unblock}
    case Other(_) => false
  }

  // The last accepted action of a run.
  function LastAction(events: seq<Event>): Option<Action> {
    if events == [] then None
    else
      var before, action := LastAction(events[..|events| - 1]), events[|events| - 1].action;
      if MayFollow(before, action) then Some(action) else before
  }

  // Minutes up to now during which one of the actions was the last accepted one.
  function TimeAfter(actions: set<Action>, events: seq<Event>, now: real): real {
    if events == [] then 0.0
    else
      var last := LastAction(events);
      TimeAfter(actions, events[..|events| - 1], events[|events| - 1].at)
      + if last.Some? && last.value in actions then now - events[|events| - 1].at else 0.0
  }

  // After every run the status is what the last accepted action says, and the next action is
  // accepted exactly when it may follow that one.
  lemma {:induction false} StatusFollowsActions(assignment: Assignment, events: seq<Event>, action: Action)
    ensures var status, last := Run(assignment, events).fields.status, LastAction(events);
            && (status == Assigned <==> last.None?)
            && (status == InProgress <==> last.Some? && last.value in {Start, Resume, Unblock})
            && (status == Paused <==> last == Some(Pause)) && (status == Blocked <==> last == Some(Block))
            && (status == Done <==> last == Some(Complete)) && status != Cancelled
            && (last.Some? ==> !last.value.Other?)
    ensures Accepts(Run(assignment, events).fields.status, action) <==> MayFollow(LastAction(events), action)
  {
    if events != [] {
      StatusFollowsActions(assignment, events[..|events| - 1], events[|events| - 1].action);
    }
  }

  // So the time in a status is the time since such an action up to the next accepted one.
  lemma {:induction false} TimeFollowsActions(assignment: Assignment, events: seq<Event>, now: real)
    ensures TimeIn(Paused, assignment, events, now) == TimeAfter({Pause}, events, now)
    ensures TimeIn(Blocked, assignment, events, now) == TimeAfter({Block}, events, now)
    ensures TimeIn(InProgress, assignment, events, now) == TimeAfter({Start, Resume, Unblock}, events, now)
  {
    if events != [] {
      TimeFollowsActions(assignment, events[..|events| - 1], events[|events| - 1].at);
      StatusFollowsActions(assignment, events, Start);
    }
  }

  // What the row stores: the paused minutes are those between a pause and the next accepted action,
  // the blocked ones those after a block, as far as they are over.
  lemma StoredMinutesFollowActions(assignment: Assignment, events: seq<Event>, now: real)
    requires NonDecreasing(events) && NoHarm(assignment, events)
    requires events != [] ==> events[|events| - 1].at <= now
    ensures var t, last := Run(assignment, events), LastAction(events);
            && t.fields.pausedMinutes == TimeAfter({Pause}, events, now)
                                         - (if last == Some(Pause) then OpenHold(t, now) else 0.0)
            && t.fields.blockedMinutes == TimeAfter({Block}, events, now)
                                          - (if last == Some(Block) then OpenHold(t, now) else 0.0)
  {
    TimeIsConserved(assignment, events, now);
    TimeFollowsActions(assignment, events, now);
    StatusFollowsActions(assignment, events, Start);
  }

  // Whatever the clock does, the stored minutes never fall.
  lemma StoredMinutesNeverFall(t: EdgeTask, action: Action, now: real)
    ensures Attempt(t, action, now).fields.pausedMinutes >= t.fields.pausedMinutes
    ensures Attempt(t, action, now).fields.blockedMinutes >= t.fields.blockedMinutes
  {
  }
}
