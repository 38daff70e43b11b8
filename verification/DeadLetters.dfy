// When a failing message leaves the outbox for the dead letters (backend/app/sync/worker.py), told
// from the recorded failures of a run alone.
module DeadLetters {
  import opened Prelude
  import opened Delivery

  // The step records a failed attempt of the message, which no other deliverer has locked.
  ghost predicate Records(w: World, step: Step, id: string) {
    && step.RecordFailure? && id in w.outbox && !LockedByOther(w, step.d, id)
    && PhaseOf(w, step.d).Failing? && PhaseOf(w, step.d).ids != [] && PhaseOf(w, step.d).ids[0] == id
  }

  // The times of the failures recorded since the message last entered the outbox, sent or retried;
  // past are those before the run.
  ghost function Failures(w: World, steps: seq<Step>, id: string, past: seq<int>): seq<int>
    decreases |steps|
  {
    if steps == [] then past
    else Failures(Next(w, steps[0]), steps[1..], id, WithFailure(w, steps[0], id, past))
  }

  ghost function WithFailure(w: World, step: Step, id: string, past: seq<int>): seq<int> {
    if id !in w.outbox then [] else if Records(w, step, id) then past + [step.now] else past
  }

  // The row remembers how many there were and when the first one was.
  predicate Remembers(outbox: map<string, Row>, id: string, past: seq<int>) {
    id in outbox ==>
      && outbox[id].attempts == |past|
      && outbox[id].firstFailedAt == if past == [] then None else Some(past[0])
  }

  lemma LiveIsNotDead(w: World, id: string)
    requires Safe(w) && id in w.outbox
    ensures id !in w.dead && id in w.first
  {
  }

  lemma StepRemembers(w: World, step: Step, id: string, past: seq<int>)
    requires Remembers(w.outbox, id, past) && (id in w.outbox ==> id !in w.dead && id in w.first)
    ensures Remembers(Next(w, step).outbox, id, WithFailure(w, step, id, past))
  {
    match step
    case RecordFailure(_, _, _) =>
    case Commit(_) =>
    case Enqueue(_, _, _, _) =>
    case Retry(_) =>
    case _ => PhaseStepsKeepTables(w, step);
  }

  lemma {:induction false} RunRemembers(w: World, steps: seq<Step>, id: string, past: seq<int>)
    requires Safe(w) && Remembers(w.outbox, id, past)
    ensures Remembers(Execute(w, steps).outbox, id, Failures(w, steps, id, past))
    decreases |steps|
  {
    if steps != [] {
      if id in w.outbox { LiveIsNotDead(w, id); }
      StepRemembers(w, steps[0], id, past);
      StepIsSafe(w, steps[0]);
      RunRemembers(Next(w, steps[0]), steps[1..], id, WithFailure(w, steps[0], id, past));
    }
  }

  // In every run, a recorded failure dead-letters its message exactly when the first failure since
  // it was sent or last retried lies the whole window back, a first failure only for an empty window.
  // The deliverer then goes on with the next message; otherwise the message stays and blocks.
  lemma DeadLetteredExactly(steps: seq<Step>, step: Step, id: string)
    requires Records(Execute(EMPTY, steps), step, id)
    ensures var w, past := Execute(EMPTY, steps), Failures(EMPTY, steps, id, []);
            var v, since := Next(w, step), if past == [] then step.now else past[0];
            && (id !in v.outbox <==> step.now - since >= step.window)
            && (id !in v.outbox ==>
                  && id in v.dead && v.dead[id].attempts == |past| + 1
                  && PhaseOf(v, step.d) == Listed(PhaseOf(w, step.d).ids[1..]))
            && (id in v.outbox ==> v.dead == w.dead && PhaseOf(v, step.d).Idle?)
  {
    RunRemembers(EMPTY, steps, id, []);
  }

  // --- Where a retried message is listed ------------------------------------------------

  // Rows and dead letters carry the time their message was sent at, and later messages later times.
  ghost predicate TimesKept(outbox: map<string, Row>, dead: map<string, DeadRow>, first: map<string, Row>) {
    && (forall id :: id in outbox ==> id in first && outbox[id].createdAt == first[id].createdAt)
    && (forall id :: id in dead ==> id in first && dead[id].createdAt == first[id].createdAt)
  }

  ghost predicate TimesAscend(first: map<string, Row>, last: int, created: int) {
    && (forall a :: a in first ==> first[a].number <= last && first[a].createdAt <= created)
    && (forall a, b :: a in first && b in first && first[a].number < first[b].number ==>
          first[a].createdAt <= first[b].createdAt)
  }

  ghost predicate InTime(w: World) {
    TimesKept(w.outbox, w.dead, w.first) && TimesAscend(w.first, w.lastNumber, w.lastCreated)
  }

  lemma SentInTime(w: World, id: string, r: Row)
    requires InTime(w) && id !in w.first && id !in w.dead
    requires r.number == w.lastNumber + 1 && w.lastCreated <= r.createdAt
    ensures TimesKept(w.outbox[id := r], w.dead, w.first[id := r])
    ensures TimesAscend(w.first[id := r], r.number, r.createdAt)
  {
  }

  lemma FailureStaysInTime(w: World, step: Step)
    requires InTime(w) && step.RecordFailure?
    ensures InTime(Next(w, step))
  {
  }

  lemma RetryStaysInTime(w: World, step: Step)
    requires InTime(w) && step.Retry?
    ensures InTime(Next(w, step))
  {
  }

  lemma CommitStaysInTime(w: World, step: Step)
    requires InTime(w) && step.Commit?
    ensures InTime(Next(w, step))
  {
  }

  lemma StepStaysInTime(w: World, step: Step)
    requires InTime(w)
    ensures InTime(Next(w, step))
  {
    match step
    case Enqueue(id, key, body, createdAt) =>
      if Next(w, step) != w {
        SentInTime(w, id, Row(key, body, createdAt, w.lastNumber + 1, None, false, 0, None));
      }
    case RecordFailure(_, _, _) => FailureStaysInTime(w, step);
    case Commit(_) => CommitStaysInTime(w, step);
    case Retry(_) => RetryStaysInTime(w, step);
    case _ => PhaseStepsKeepTables(w, step);
  }

  lemma {:induction false} RunStaysInTime(w: World, steps: seq<Step>)
    requires InTime(w)
    ensures InTime(Execute(w, steps))
    decreases |steps|
  {
    if steps != [] {
      StepStaysInTime(w, steps[0]);
      RunStaysInTime(Next(w, steps[0]), steps[1..]);
    }
  }

  // Still to be applied.
  predicate Waits(w: World, id: string) { Pending(w.outbox, id) && w.outbox[id].key !in w.inbox }

  lemma BeforeIsSentBefore(w: World, a: string, b: string)
    requires InTime(w) && Original(w) && Waits(w, a) && Waits(w, b) && Before(w.outbox[a], w.outbox[b])
    ensures a in w.first && b in w.first && w.first[a].number < w.first[b].number
  {
    assert RowKeepsNumber(w.first, a, w.outbox[a], w.lastNumber);
    assert RowKeepsNumber(w.first, b, w.outbox[b], w.lastNumber);
  }

  // Messages still to be applied are listed in the order they were first sent in, retried dead letters
  // in their old place, and none is passed over for a later one; in every run in which no such
  // message is dead-lettered twice.
  lemma ListedAsFirstSent(steps: seq<Step>, batch: seq<string>)
    requires OneCycle(EMPTY, steps) && IsListing(Execute(EMPTY, steps).outbox, batch)
    ensures var w := Execute(EMPTY, steps);
            && (forall id :: Waits(w, id) ==> id in w.first)
            && (forall i, j :: 0 <= i < j < |batch| && Waits(w, batch[i]) && Waits(w, batch[j]) ==>
                  w.first[batch[i]].number < w.first[batch[j]].number)
            && (forall i, id :: 0 <= i < |batch| && Waits(w, batch[i]) && Waits(w, id) && id !in batch ==>
                  w.first[batch[i]].number < w.first[id].number)
  {
    var w := Execute(EMPTY, steps);
    RunKeepsNumbers(EMPTY, steps);
    RunStaysInTime(EMPTY, steps);
    forall a, b | Waits(w, a) && Waits(w, b) && Before(w.outbox[a], w.outbox[b])
      ensures a in w.first && b in w.first && w.first[a].number < w.first[b].number
    {
      BeforeIsSentBefore(w, a, b);
    }
  }
}
