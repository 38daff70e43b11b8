// What a second dead-lettering leads to (backend/app/sync/worker.py): the retried message can be
// applied with a sequence it was not first sent with.
module Renumbering {
  import opened Prelude
  import opened Delivery

  // --- Delivering one message -------------------------------------------------------

  ghost predicate AllIdle(w: World) { forall d :: PhaseOf(w, d).Idle? }

  // Runs of nothing but stops, listings, takes and commits.
  predicate Delivers(steps: seq<Step>) {
    forall i :: 0 <= i < |steps| ==> steps[i].Stop? || steps[i].List? || steps[i].Take? || steps[i].Commit?
  }

  lemma {:induction false} DeliveringKeepsDead(w: World, steps: seq<Step>)
    requires Delivers(steps)
    ensures Execute(w, steps).dead == w.dead && Execute(w, steps).lastNumber == w.lastNumber
    decreases |steps|
  {
    if steps != [] {
      assert steps[0].Stop? || steps[0].List? || steps[0].Take? || steps[0].Commit?;
      if !steps[0].Commit? { PhaseStepsKeepTables(w, steps[0]); }
      DeliveringKeepsDead(Next(w, steps[0]), steps[1..]);
    }
  }

  // Runs that send and dead-letter nothing.
  predicate Calm(steps: seq<Step>) {
    forall i :: 0 <= i < |steps| ==> !steps[i].RecordFailure? && !steps[i].Enqueue?
  }

  lemma {:induction false} CalmIsOneCycle(w: World, steps: seq<Step>)
    requires Calm(steps)
    ensures OneCycle(w, steps) && Execute(w, steps).first == w.first
    decreases |steps|
  {
    if steps != [] {
      assert !steps[0].RecordFailure? && !steps[0].Enqueue?;
      CalmIsOneCycle(Next(w, steps[0]), steps[1..]);
    }
  }

  // Every deliverer stops.
  lemma {:induction false} StopAll(w: World, busy: set<int>) returns (steps: seq<Step>)
    requires forall d :: !PhaseOf(w, d).Idle? ==> d in busy
    ensures Delivers(steps) && AllIdle(Execute(w, steps)) && Execute(w, steps) == w.(phases := Execute(w, steps).phases)
    decreases busy
  {
    if busy == {} {
      steps := [];
    } else {
      SomeMember(busy);
      var d :| d in busy;
      var rest := StopAll(Next(w, Stop(d)), busy - {d});
      steps := [Stop(d)] + rest;
      assert steps[1..] == rest;
    }
  }

  // Messages that are not applied are told apart by the delivery order.
  ghost predicate TellsApart(outbox: map<string, Row>) {
    forall a, b :: a in outbox && b in outbox && Effective(outbox[a]) == Effective(outbox[b]) ==> a == b
  }

  lemma SequencesTellApart(w: World)
    requires Safe(w) && OneKeyEach(w)
    ensures TellsApart(w.outbox)
  {
    forall a, b | a in w.outbox && b in w.outbox && Effective(w.outbox[a]) == Effective(w.outbox[b]) ensures a == b {
      var n := Effective(w.outbox[a]);
      assert RowUses(w.outbox[a], n, w.outbox[a].key) && RowUses(w.outbox[b], n, w.outbox[b].key);
      assert Uses(w, n, w.outbox[a].key) && Uses(w, n, w.outbox[b].key);
      assert Known(w.first, a, w.outbox[a].key, w.outbox[a].body)
             && Known(w.first, b, w.outbox[b].key, w.outbox[b].body);
    }
  }

  lemma {:induction false} Earliest(outbox: map<string, Row>, ids: set<string>) returns (id: string)
    requires TellsApart(outbox) && ids <= outbox.Keys && ids != {}
    ensures id in ids && forall x :: x in ids && x != id ==> Before(outbox[id], outbox[x])
    decreases ids
  {
    var x :| x in ids;
    if ids == {x} {
      id := x;
    } else {
      var y := Earliest(outbox, ids - {x});
      id := if Before(outbox[x], outbox[y]) then x else y;
    }
  }

  // The first n of the ids, in delivery order.
  lemma {:induction false} Sorted(outbox: map<string, Row>, ids: set<string>, n: nat) returns (batch: seq<string>)
    requires TellsApart(outbox) && ids <= outbox.Keys
    ensures |batch| <= n && forall x :: x in batch ==> x in ids
    ensures forall i, j :: 0 <= i < j < |batch| ==> Before(outbox[batch[i]], outbox[batch[j]])
    ensures forall x :: x in ids && x !in batch ==>
              |batch| == n && forall i :: 0 <= i < |batch| ==> Before(outbox[batch[i]], outbox[x])
    decreases ids
  {
    if n == 0 || ids == {} {
      batch := [];
    } else {
      var id := Earliest(outbox, ids);
      var rest := Sorted(outbox, ids - {id}, n - 1);
      batch := [id] + rest;
      forall x | x in batch ensures x in ids { assert x == id || x in rest; }
      forall x | x in ids && x !in batch
        ensures |batch| == n && forall i :: 0 <= i < |batch| ==> Before(outbox[batch[i]], outbox[x])
      {
        assert id in batch && x != id && x !in rest;
      }
      forall i, j | 0 <= i < j < |batch| ensures Before(outbox[batch[i]], outbox[batch[j]]) {
        assert rest[j - 1] in rest && rest[j - 1] in ids - {id};
      }
    }
  }

  function PendingIds(outbox: map<string, Row>): set<string> { set id | id in outbox && !outbox[id].delivered }

  lemma SomeListing(outbox: map<string, Row>) returns (batch: seq<string>)
    requires TellsApart(outbox) && PendingIds(outbox) != {}
    ensures IsListing(outbox, batch) && batch != []
  {
    batch := Sorted(outbox, PendingIds(outbox), BATCH_SIZE);
    forall i | 0 <= i < |batch| ensures Pending(outbox, batch[i]) { assert batch[i] in batch; }
    var x :| x in PendingIds(outbox);
    assert x !in batch ==> |batch| == BATCH_SIZE;
  }

  // List, take and commit the first message, and stop.
  function DeliverFirst(batch: seq<string>): seq<Step> { [List(0, batch), Take(0), Commit(0), Stop(0)] }

  lemma FirstIsDelivered(w: World, batch: seq<string>)
    requires AllIdle(w) && IsListing(w.outbox, batch) && batch != []
    ensures var v, id := Execute(w, DeliverFirst(batch)), batch[0];
            var r := w.outbox[id];
            && AllIdle(v) && v.outbox == w.outbox[id := r.(delivered := true)] && v.first == w.first
            && (r.key in w.inbox ==> v.inbox == w.inbox && v.log == w.log)
            && (r.key !in w.inbox ==>
                  v.inbox == w.inbox + {r.key} && v.log == w.log + [Entry(r.key, r.body, Effective(r))])
  {
    var listed := Next(w, List(0, batch));
    assert !LockedByOther(listed, 0, batch[0]) by {
      forall o | o != 0 ensures !Holds(listed.phases, o, batch[0]) { assert PhaseOf(w, o).Idle?; }
    }
    CommittedAttempt(listed, 0, batch[0]);
    ExecuteAppend(w, [List(0, batch)], [Take(0), Commit(0), Stop(0)]);
    ExecuteAppend(listed, [Take(0), Commit(0)], [Stop(0)]);
    ExecuteOne(w, List(0, batch));
    ExecuteOne(Execute(listed, [Take(0), Commit(0)]), Stop(0));
    assert [List(0, batch)] + [Take(0), Commit(0), Stop(0)] == DeliverFirst(batch);
    assert [Take(0), Commit(0)] + [Stop(0)] == [Take(0), Commit(0), Stop(0)];
    var v := Execute(w, DeliverFirst(batch));
    forall d ensures PhaseOf(v, d).Idle? { assert PhaseOf(w, d).Idle?; }
  }

  lemma OneFewer(outbox: map<string, Row>, id: string)
    requires Pending(outbox, id)
    ensures |PendingIds(outbox[id := outbox[id].(delivered := true)])| < |PendingIds(outbox)|
  {
    assert PendingIds(outbox[id := outbox[id].(delivered := true)]) == PendingIds(outbox) - {id};
  }

  // The message can be taken and applied.
  ghost predicate Applicable(w: World, id: string) {
    Safe(w) && OneKeyEach(w) && AllIdle(w) && Pending(w.outbox, id) && w.outbox[id].key !in w.inbox
  }

  predicate EndsWith(log: seq<Entry>, e: Entry) { log != [] && log[|log| - 1] == e }

  predicate LoggedLast(log: seq<Entry>, r: Row) { EndsWith(log, Entry(r.key, r.body, Effective(r))) }

  function EntryOf(x: DeadRow): Entry { Entry(x.key, x.body, x.number) }

  lemma FirstApplied(w: World, id: string, batch: seq<string>)
    requires Applicable(w, id) && IsListing(w.outbox, batch) && batch != [] && batch[0] == id
    ensures LoggedLast(Execute(w, DeliverFirst(batch)).log, w.outbox[id]) && AllIdle(Execute(w, DeliverFirst(batch)))
  {
    FirstIsDelivered(w, batch);
  }

  lemma FirstLeavesOthers(w: World, id: string, batch: seq<string>)
    requires Applicable(w, id) && IsListing(w.outbox, batch) && batch != [] && batch[0] != id
    ensures var v := Execute(w, DeliverFirst(batch));
            Applicable(v, id) && v.outbox[id] == w.outbox[id] && |PendingIds(v.outbox)| < |PendingIds(w.outbox)|
  {
    FirstIsDelivered(w, batch);
    RunIsSafe(w, DeliverFirst(batch));
    RunKeepsOneKeyEach(w, DeliverFirst(batch));
    OneFewer(w.outbox, batch[0]);
    KeysDiffer(w, id, batch[0]);
  }

  // Some run applies the message, with the sequence it has now.
  lemma {:induction false} CanApply(w: World, id: string) returns (steps: seq<Step>)
    requires Applicable(w, id)
    ensures Delivers(steps) && LoggedLast(Execute(w, steps).log, w.outbox[id]) && AllIdle(Execute(w, steps))
    decreases |PendingIds(w.outbox)|
  {
    SequencesTellApart(w);
    assert id in PendingIds(w.outbox);
    var batch := SomeListing(w.outbox);
    if batch[0] == id {
      steps := DeliverFirst(batch);
      FirstApplied(w, id, batch);
    } else {
      FirstLeavesOthers(w, id, batch);
      var rest := CanApply(Execute(w, DeliverFirst(batch)), id);
      ExecuteAppend(w, DeliverFirst(batch), rest);
      steps := DeliverFirst(batch) + rest;
    }
  }

  lemma KeysDiffer(w: World, a: string, b: string)
    requires Safe(w) && a in w.outbox && b in w.outbox && a != b
    ensures w.outbox[a].key != w.outbox[b].key
  {
    assert Known(w.first, a, w.outbox[a].key, w.outbox[a].body) && Known(w.first, b, w.outbox[b].key, w.outbox[b].body);
  }

  // --- The consequence of a second dead-lettering -----------------------------------

  // Some applied message carries a sequence it was not first sent with.
  ghost predicate Renumbered(w: World) { !AllFromMessages(w.first, w.log) }

  ghost predicate RenumbersBy(w: World, more: seq<Step>) { OneCycle(w, more) && Renumbered(Execute(w, more)) }

  lemma WrongEntry(first: map<string, Row>, log: seq<Entry>, id: string, e: Entry)
    requires Injective(first) && id in first && e.key == first[id].key && e.number != first[id].number && e in log
    ensures !AllFromMessages(first, log)
  {
    var i :| 0 <= i < |log| && log[i] == e;
    forall m | m in first ensures e != Entry(first[m].key, first[m].body, first[m].number) {}
    assert !FromMessage(first, log[i]);
  }

  lemma {:induction false} LogGrows(w: World, steps: seq<Step>)
    ensures w.log <= Execute(w, steps).log
    decreases |steps|
  {
    if steps != [] {
      StepGrowsLog(w, steps[0]);
      LogGrows(Next(w, steps[0]), steps[1..]);
    }
  }

  lemma StepGrowsLog(w: World, step: Step)
    ensures w.log <= Next(w, step).log
  {
    match step
    case Commit(_) =>
    case RecordFailure(_, _, _) =>
    case Enqueue(_, _, _, _) =>
    case Retry(_) =>
    case _ => PhaseStepsKeepTables(w, step);
  }

  lemma RetriedIsApplicable(w: World, id: string)
    requires Safe(w) && OneKeyEach(w) && AllIdle(w) && id in w.dead && w.dead[id].number > 0
    requires w.dead[id].key !in w.inbox
    ensures Applicable(Next(w, Retry(id)), id)
    ensures Next(w, Retry(id)).outbox[id] == Revived(w.dead[id], w.lastNumber + 1)
  {
    var u := Next(w, Retry(id));
    StepIsSafe(w, Retry(id));
    StepKeepsOneKeyEach(w, Retry(id));
    forall d ensures PhaseOf(u, d).Idle? { assert PhaseOf(w, d).Idle?; }
  }

  lemma ExecuteCons(w: World, step: Step, rest: seq<Step>)
    ensures Execute(w, [step] + rest) == Execute(Next(w, step), rest)
  {
    assert ([step] + rest)[1..] == rest;
  }

  // Every deliverer stops, and nothing else changes.
  lemma ComesToRest(w: World) returns (stops: seq<Step>, idle: World)
    requires Safe(w) && OneKeyEach(w)
    ensures Delivers(stops) && idle == Execute(w, stops) && idle == w.(phases := idle.phases)
    ensures Safe(idle) && OneKeyEach(idle) && AllIdle(idle)
  {
    stops := StopAll(w, w.phases.Keys);
    idle := Execute(w, stops);
    RunIsSafe(w, stops);
    RunKeepsOneKeyEach(w, stops);
  }

  // A dead letter that can be retried and is not applied yet.
  ghost predicate Retriable(w: World, id: string) {
    Safe(w) && OneKeyEach(w) && id in w.dead && w.dead[id].number > 0 && w.dead[id].key !in w.inbox
  }

  lemma IdleDeadCanApply(w: World, id: string) returns (steps: seq<Step>)
    requires Retriable(w, id) && AllIdle(w)
    ensures Calm(steps) && EndsWith(Execute(w, steps).log, EntryOf(w.dead[id]))
  {
    RetriedIsApplicable(w, id);
    var rest := CanApply(Next(w, Retry(id)), id);
    ExecuteCons(w, Retry(id), rest);
    steps := [Retry(id)] + rest;
  }

  // The dead letter, retried, can be applied with the sequence it was buried with.
  lemma DeadCanApply(w: World, id: string) returns (steps: seq<Step>)
    requires Retriable(w, id)
    ensures Calm(steps) && EndsWith(Execute(w, steps).log, EntryOf(w.dead[id]))
  {
    var stops, idle := ComesToRest(w);
    var rest := IdleDeadCanApply(idle, id);
    ExecuteAppend(w, stops, rest);
    steps := stops + rest;
  }

  lemma MisnumberedCanApply(w: World, step: Step) returns (more: seq<Step>)
    requires Safe(w) && OneKeyEach(w) && Original(w) && Misnumbers(w, step)
    ensures RenumbersBy(Next(w, step), more)
  {
    var id :| Buries(w, step, id) && w.outbox[id].replayNumber.Some? && w.outbox[id].key !in w.inbox;
    var v := Next(w, step);
    FailureWrites(w, step);
    StepIsSafe(w, step);
    StepKeepsOneKeyEach(w, step);
    assert RowKeepsNumber(w.first, id, w.outbox[id], w.lastNumber);
    assert Known(w.first, id, w.outbox[id].key, w.outbox[id].body);
    assert v.dead[id].number == w.outbox[id].number > v.first[id].number > 0;
    more := DeadCanApply(v, id);
    CalmIsOneCycle(v, more);
    RunIsSafe(v, more);
    var log := Execute(v, more).log;
    assert log[|log| - 1] in log;
    WrongEntry(v.first, log, id, Entry(v.dead[id].key, v.dead[id].body, v.dead[id].number));
  }

  // From every state of a run in which nothing still to be applied is dead-lettered twice, a step
  // can lead, with no further such burial, to a message being applied with a sequence it was not
  // first sent with, exactly when the step is such a burial.
  lemma RenumbersExactly(steps: seq<Step>, step: Step)
    requires OneCycle(EMPTY, steps)
    ensures var w := Execute(EMPTY, steps); (exists more :: RenumbersBy(Next(w, step), more)) <==> Misnumbers(w, step)
  {
    var w := Execute(EMPTY, steps);
    RunKeepsNumbers(EMPTY, steps);
    RunKeepsOneKeyEach(EMPTY, steps);
    if Misnumbers(w, step) {
      var more := MisnumberedCanApply(w, step);
    } else {
      StepIsSafe(w, step);
      StepKeepsNumbersExactly(w, step);
      forall more | OneCycle(Next(w, step), more) ensures !RenumbersBy(Next(w, step), more) {
        RunKeepsNumbers(Next(w, step), more);
      }
    }
  }

  // --- A run that leads there -------------------------------------------------------

  // List and take a message whose handler fails.
  function Trying(id: string): seq<Step> { [List(0, [id]), Take(0), Rollback(0)] }

  // The message is alone in the outbox, and nobody is at work.
  ghost predicate Alone(w: World, id: string) {
    AllIdle(w) && w.outbox.Keys == {id} && !w.outbox[id].delivered && w.dead == map[] && w.inbox == {}
  }

  lemma TriesOnce(w: World, id: string)
    requires Alone(w, id)
    ensures Execute(w, Trying(id)) == Move(w, 0, Failing([id])) && OneCycle(w, Trying(id))
  {
    var listed := Next(w, List(0, [id]));
    assert IsListing(w.outbox, [id]);
    assert !LockedByOther(listed, 0, id) by {
      forall o | o != 0 ensures !Holds(listed.phases, o, id) { assert PhaseOf(w, o).Idle?; }
    }
    ExecuteThree(w, List(0, [id]), Take(0), Rollback(0));
    CalmIsOneCycle(w, Trying(id));
  }

  lemma {:induction false} OneCycleAppend(w: World, steps: seq<Step>, more: seq<Step>)
    requires OneCycle(w, steps) && OneCycle(Execute(w, steps), more)
    ensures OneCycle(w, steps + more) && Execute(w, steps + more) == Execute(Execute(w, steps), more)
    decreases |steps|
  {
    if steps == [] {
      assert steps + more == more;
    } else {
      assert (steps + more)[1..] == steps[1..] + more;
      OneCycleAppend(Next(w, steps[0]), steps[1..], more);
    }
  }

  lemma OneStep(w: World, steps: seq<Step>, step: Step)
    requires OneCycle(w, steps) && !Misnumbers(Execute(w, steps), step)
    ensures OneCycle(w, steps + [step]) && Execute(w, steps + [step]) == Next(Execute(w, steps), step)
  {
    var v := Execute(w, steps);
    assert [step][1..] == [];
    OneCycleAppend(w, steps, [step]);
    ExecuteOne(v, step);
  }

  // A first failure within the window: the message waits for its next try.
  lemma FailsOnce(w: World, id: string, now: int, window: int) returns (steps: seq<Step>)
    requires Alone(w, id) && window > 0 && w.outbox[id].firstFailedAt.None?
    ensures steps == Trying(id) + [RecordFailure(0, now, window)]
    ensures OneCycle(w, steps) && Alone(Execute(w, steps), id)
    ensures Execute(w, steps) == w.(outbox := w.outbox[id := Failed(w.outbox[id], now)], phases := w.phases[0 := Idle])
  {
    TriesOnce(w, id);
    var tried, fail := Execute(w, Trying(id)), RecordFailure(0, now, window);
    NobodyElse(w, tried, id);
    assert !Misnumbers(tried, fail);
    OneStep(w, Trying(id), fail);
    steps := Trying(id) + [fail];
    var v := Execute(w, steps);
    forall d ensures PhaseOf(v, d).Idle? { assert PhaseOf(w, d).Idle?; }
  }

  lemma NobodyElse(w: World, tried: World, id: string)
    requires AllIdle(w) && tried == Move(w, 0, Failing([id]))
    ensures !LockedByOther(tried, 0, id)
  {
    forall o | o != 0 ensures !Holds(tried.phases, o, id) { assert PhaseOf(w, o).Idle?; }
  }

  // A second failure at the end of the window dead-letters it.
  lemma IsBuried(w: World, id: string, now: int, window: int) returns (steps: seq<Step>)
    requires Alone(w, id) && w.outbox[id].replayNumber.None? && w.outbox[id].firstFailedAt == Some(now - window)
    ensures OneCycle(w, steps) && AllIdle(Execute(w, steps))
    ensures Execute(w, steps) == w.(outbox := map[], dead := map[id := Buried(Failed(w.outbox[id], now))],
                                    phases := w.phases[0 := Idle])
  {
    TriesOnce(w, id);
    var tried, fail := Execute(w, Trying(id)), RecordFailure(0, now, window);
    NobodyElse(w, tried, id);
    assert !Misnumbers(tried, fail);
    OneStep(w, Trying(id), fail);
    var buried := Execute(w, Trying(id) + [fail]);
    assert buried.dead == map[id := Buried(Failed(w.outbox[id], now))] && buried.outbox == map[];
    assert !Misnumbers(buried, Stop(0));
    OneStep(w, Trying(id) + [fail], Stop(0));
    steps := Trying(id) + [fail] + [Stop(0)];
    var v := Execute(w, steps);
    forall d ensures PhaseOf(v, d).Idle? { assert PhaseOf(w, d).Idle?; }
  }

  // Retried, it is alone again.
  lemma IsRetried(w: World, id: string, now: int, window: int) returns (steps: seq<Step>)
    requires Alone(w, id) && w.outbox[id].replayNumber.None? && w.outbox[id].number > 0
    requires w.outbox[id].firstFailedAt == Some(now - window)
    ensures OneCycle(w, steps) && Alone(Execute(w, steps), id)
    ensures var r := Execute(w, steps).outbox[id]; r.replayNumber.Some? && r.firstFailedAt.None?
  {
    var before := IsBuried(w, id, now, window);
    var idle := Execute(w, before);
    assert !Misnumbers(idle, Retry(id));
    OneStep(w, before, Retry(id));
    steps := before + [Retry(id)];
    var v := Execute(w, steps);
    assert v.outbox == map[id := Revived(idle.dead[id], w.lastNumber + 1)] && v.dead == map[];
    forall d ensures PhaseOf(v, d).Idle? { assert PhaseOf(idle, d).Idle?; }
  }

  // Any message that keeps failing for longer than the window, is retried, and keeps failing for as
  // long again: its second dead-lettering is one of the steps above.
  lemma SecondBurialIsReached(id: string, key: string, body: Body, createdAt: int, now: int, window: int)
    returns (steps: seq<Step>, step: Step)
    requires createdAt >= 0 && window > 0
    ensures OneCycle(EMPTY, steps) && Misnumbers(Execute(EMPTY, steps), step)
  {
    var enqueue := Enqueue(id, key, body, createdAt);
    assert !Misnumbers(EMPTY, enqueue) && Execute(EMPTY, []) == EMPTY && [] + [enqueue] == [enqueue];
    OneStep(EMPTY, [], enqueue);
    var w1 := Execute(EMPTY, [enqueue]);
    assert w1.outbox == map[id := Row(key, body, createdAt, 1, None, false, 0, None)] && Alone(w1, id);
    var first := FailsOnce(w1, id, now, window);
    OneCycleAppend(EMPTY, [enqueue], first);
    var w2 := Execute(w1, first);
    var second := IsRetried(w2, id, now + window, window);
    OneCycleAppend(EMPTY, [enqueue] + first, second);
    var w3 := Execute(w2, second);
    var third := FailsOnce(w3, id, now + window, window);
    OneCycleAppend(EMPTY, [enqueue] + first + second, third);
    var w4 := Execute(w3, third);
    TriesOnce(w4, id);
    OneCycleAppend(EMPTY, [enqueue] + first + second + third, Trying(id));
    steps := [enqueue] + first + second + third + Trying(id);
    step := RecordFailure(0, now + 2 * window, window);
    var w5 := Execute(w4, Trying(id));
    NobodyElse(w4, w5, id);
    assert Buries(w5, step, id);
  }
}
