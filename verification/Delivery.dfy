// The sync worker (backend/app/sync/worker.py): any number of deliverers take the messages of
// one direction out of the outbox, one row lock and one transaction at a time, with dead
// letters and their retry. Every step below is one transaction, or one lock attempt.
module Delivery {
  import opened Prelude

  const BATCH_SIZE := 200

  // What a message says: its type, the entity it is about, and the encoded payload.
  datatype Body = Body(kind: string, entity: string, payload: string)

  datatype Row = Row(
    key: string,               // idempotency key
    body: Body,
    createdAt: int,
    number: int,               // outbox sequence
    replayNumber: Option<int>, // original sequence, on a retried dead letter
    delivered: bool,
    attempts: nat,
    firstFailedAt: Option<int>)

  datatype DeadRow = DeadRow(key: string, body: Body, createdAt: int, attempts: nat, number: int)

  // An entry of the receiving side: the handler ran for this key with this sequence.
  datatype Entry = Entry(key: string, body: Body, number: int)

  // Where a deliverer is in its batch; the head of ids is the message at hand.
  datatype Phase =
    | Idle
    | Listed(ids: seq<string>)
    | Applying(ids: seq<string>, duplicate: bool)   // holds the row lock; inbox already looked at
    | Failing(ids: seq<string>)                     // rolled back, failure not recorded yet

  datatype World = World(
    outbox: map<string, Row>,
    dead: map<string, DeadRow>,
    inbox: set<string>,
    log: seq<Entry>,                 // applied entries, in commit order
    phases: map<int, Phase>,
    lastNumber: int,
    lastCreated: int,
    first: map<string, Row>,         // every message as it was first enqueued
    sent: seq<string>)               // message ids in the order they were enqueued

  const EMPTY := World(map[], map[], {}, [], map[], 0, 0, map[], [])

  function Effective(r: Row): int {
    if r.replayNumber.Some? then r.replayNumber.value else r.number
  }

  // Delivery order: timestamp, then sequence.
  predicate Before(a: Row, b: Row) {
    a.createdAt < b.createdAt || (a.createdAt == b.createdAt && Effective(a) < Effective(b))
  }

  predicate Pending(outbox: map<string, Row>, id: string) {
    id in outbox && !outbox[id].delivered
  }

  // The ids query: undelivered rows in delivery order, the first BATCH_SIZE of them.
  ghost predicate IsListing(outbox: map<string, Row>, ids: seq<string>) {
    && |ids| <= BATCH_SIZE
    && (forall i :: 0 <= i < |ids| ==> Pending(outbox, ids[i]))
    && (forall i, j :: 0 <= i < j < |ids| ==> Before(outbox[ids[i]], outbox[ids[j]]))
    && (forall id :: Pending(outbox, id) && id !in ids ==>
          |ids| == BATCH_SIZE && forall i :: 0 <= i < |ids| ==> Before(outbox[ids[i]], outbox[id]))
  }

  function PhaseOf(w: World, d: int): Phase {
    if d in w.phases then w.phases[d] else Idle
  }

  predicate Holds(phases: map<int, Phase>, d: int, id: string) {
    d in phases && phases[d].Applying? && phases[d].ids != [] && phases[d].ids[0] == id
  }

  ghost predicate LockedByOther(w: World, d: int, id: string) {
    exists o :: o != d && Holds(w.phases, o, id)
  }

  datatype Step =
    | Enqueue(id: string, key: string, body: Body, createdAt: int)
    | List(d: int, batch: seq<string>)
    | Stop(d: int)                             // batch done, message in backoff, or process death
    | Take(d: int)                             // lock the head row and look at it
    | Commit(d: int)
    | Rollback(d: int)
    | RecordFailure(d: int, now: int, window: int)
    | Retry(id: string)

  function Move(w: World, d: int, p: Phase): World {
    w.(phases := w.phases[d := p])
  }

  function Buried(r: Row): DeadRow {
    DeadRow(r.key, r.body, r.createdAt, r.attempts, r.number)
  }

  function Revived(x: DeadRow, number: int): Row {
    Row(x.key, x.body, x.createdAt, number, Some(x.number), false, 0, None)
  }

  function Failed(r: Row, now: int): Row {
    r.(attempts := r.attempts + 1, firstFailedAt := if r.firstFailedAt.Some? then r.firstFailedAt else Some(now))
  }

  // Failing for at least the dead-letter window, counted from the first failure.
  predicate GivesUp(r: Row, now: int, window: int) {
    now - Failed(r, now).firstFailedAt.value >= window
  }

  // One step; a step that is not enabled changes nothing.
  ghost function Next(w: World, step: Step): World {
    match step
    case Enqueue(id, key, body, createdAt) =>
      // Message ids and keys are fresh, and timestamps do not go back.
      if id in w.first || (exists a :: a in w.first && w.first[a].key == key) || createdAt < w.lastCreated then w
      else
        var n := w.lastNumber + 1;
        var r := Row(key, body, createdAt, n, None, false, 0, None);
        w.(outbox := w.outbox[id := r], lastNumber := n, lastCreated := createdAt,
           first := w.first[id := r], sent := w.sent + [id])
    case List(d, batch) =>
      if PhaseOf(w, d).Idle? && IsListing(w.outbox, batch) then Move(w, d, Listed(batch)) else w
    case Stop(d) => Move(w, d, Idle)
    case Take(d) =>
      var p := PhaseOf(w, d);
      if !p.Listed? || p.ids == [] then w
      else
        var id := p.ids[0];
        if id !in w.outbox || LockedByOther(w, d, id) then Move(w, d, Idle)
        else if w.outbox[id].delivered then Move(w, d, Listed(p.ids[1..]))
        else Move(w, d, Applying(p.ids, w.outbox[id].key in w.inbox))
    case Commit(d) =>
      var p := PhaseOf(w, d);
      if !p.Applying? || p.ids == [] || p.ids[0] !in w.outbox then w
      else
        var id := p.ids[0];
        var r := w.outbox[id];
        var marked := Move(w.(outbox := w.outbox[id := r.(delivered := true)]), d, Listed(p.ids[1..]));
        if p.duplicate then marked
        else marked.(inbox := w.inbox + {r.key}, log := w.log + [Entry(r.key, r.body, Effective(r))])
    case Rollback(d) =>
      if PhaseOf(w, d).Applying? then Move(w, d, Failing(PhaseOf(w, d).ids)) else w
    case RecordFailure(d, now, window) =>
      var p := PhaseOf(w, d);
      if !p.Failing? || p.ids == [] then w
      else
        var id := p.ids[0];
        if id !in w.outbox then Move(w, d, Idle)
        else if LockedByOther(w, d, id) then w
        else
          var r := Failed(w.outbox[id], now);
          if !GivesUp(w.outbox[id], now, window) then Move(w.(outbox := w.outbox[id := r]), d, Idle)
          else Move(w.(outbox := w.outbox - {id}, dead := w.dead[id := Buried(r)]), d, Listed(p.ids[1..]))
    case Retry(id) =>
      if id !in w.dead || w.dead[id].number <= 0 then w
      else
        var n := w.lastNumber + 1;
        w.(outbox := w.outbox[id := Revived(w.dead[id], n)], dead := w.dead - {id}, lastNumber := n)
  }

  ghost function Execute(w: World, steps: seq<Step>): World
    decreases |steps|
  {
    if steps == [] then w else Execute(Next(w, steps[0]), steps[1..])
  }

  // --- Each key is applied at most once ---------------------------------------------

  // One key per message id, for good.
  ghost predicate Injective(first: map<string, Row>) {
    forall a, b :: a in first && b in first && first[a].key == first[b].key ==> a == b
  }

  predicate Known(first: map<string, Row>, id: string, key: string, body: Body) {
    id in first && first[id].key == key && first[id].body == body
  }

  // Outbox and dead letters hold known messages, each in one place only.
  ghost predicate RowsKnown(outbox: map<string, Row>, dead: map<string, DeadRow>, first: map<string, Row>) {
    && (forall id :: id in outbox ==> id !in dead && Known(first, id, outbox[id].key, outbox[id].body))
    && (forall id :: id in dead ==> Known(first, id, dead[id].key, dead[id].body))
  }

  ghost predicate OnceOnly(log: seq<Entry>, inbox: set<string>) {
    && (forall i, j :: 0 <= i < j < |log| ==> log[i].key != log[j].key)
    && (forall i :: 0 <= i < |log| ==> log[i].key in inbox)
  }

  ghost predicate LocksHeld(phases: map<int, Phase>, outbox: map<string, Row>, inbox: set<string>) {
    && (forall d, id :: Holds(phases, d, id) ==>
          Pending(outbox, id) && (phases[d].duplicate <==> outbox[id].key in inbox))
    && (forall d, e, id :: Holds(phases, d, id) && Holds(phases, e, id) ==> d == e)
  }

  ghost predicate Safe(w: World) {
    && Injective(w.first) && RowsKnown(w.outbox, w.dead, w.first)
    && OnceOnly(w.log, w.inbox) && LocksHeld(w.phases, w.outbox, w.inbox)
  }

  // Locks only ever disappear, and what they guard stays as it was.
  lemma LocksShrink(before: map<int, Phase>, after: map<int, Phase>,
                    outbox: map<string, Row>, outbox': map<string, Row>, inbox: set<string>, inbox': set<string>)
    requires LocksHeld(before, outbox, inbox)
    requires forall d, id :: Holds(after, d, id) ==>
               && Holds(before, d, id) && after[d] == before[d] && Pending(outbox', id)
               && (outbox'[id].key in inbox' <==> outbox[id].key in inbox)
    ensures LocksHeld(after, outbox', inbox')
  {
    forall d, e, id | Holds(after, d, id) && Holds(after, e, id) ensures d == e {
      assert Holds(before, d, id) && Holds(before, e, id);
    }
  }

  lemma MoveIsSafe(w: World, d: int, p: Phase)
    requires Safe(w) && !p.Applying?
    ensures Safe(Move(w, d, p))
  {
    LocksShrink(w.phases, w.phases[d := p], w.outbox, w.outbox, w.inbox, w.inbox);
  }

  lemma LocksGrow(before: map<int, Phase>, d: int, p: Phase, outbox: map<string, Row>, inbox: set<string>)
    requires LocksHeld(before, outbox, inbox)
    requires p.Applying? && p.ids != [] && Pending(outbox, p.ids[0])
    requires p.duplicate <==> outbox[p.ids[0]].key in inbox
    requires forall e :: e != d ==> !Holds(before, e, p.ids[0])
    ensures LocksHeld(before[d := p], outbox, inbox)
  {
    var after := before[d := p];
    forall e, id | Holds(after, e, id)
      ensures Pending(outbox, id) && (after[e].duplicate <==> outbox[id].key in inbox)
    {
      assert e == d || Holds(before, e, id);
    }
    forall e, f, id | Holds(after, e, id) && Holds(after, f, id) ensures e == f {
      assert e == d || Holds(before, e, id);
      assert f == d || Holds(before, f, id);
    }
  }

  lemma TakeIsSafe(w: World, d: int)
    requires Safe(w)
    ensures Safe(Next(w, Take(d)))
  {
    var v := Next(w, Take(d));
    if v != w {
      var p := PhaseOf(v, d);
      assert v == Move(w, d, p);
      if p.Applying? {
        LocksGrow(w.phases, d, p, w.outbox, w.inbox);
      } else {
        MoveIsSafe(w, d, p);
      }
    }
  }

  // What a commit of the head writes.
  lemma CommitWrites(w: World, d: int)
    requires var p := PhaseOf(w, d); p.Applying? && p.ids != [] && p.ids[0] in w.outbox
    ensures var p, v := PhaseOf(w, d), Next(w, Commit(d));
            var r := w.outbox[p.ids[0]];
            && v.outbox == w.outbox[p.ids[0] := r.(delivered := true)] && v.phases == w.phases[d := Listed(p.ids[1..])]
            && v.sent == w.sent && v.dead == w.dead && v.first == w.first
            && v.lastNumber == w.lastNumber && v.lastCreated == w.lastCreated
            && v.inbox == (if p.duplicate then w.inbox else w.inbox + {r.key})
            && v.log == if p.duplicate then w.log else w.log + [Entry(r.key, r.body, Effective(r))]
  {
  }

  // The lock keeps the inbox answer of Take true until Commit, so the insert is never a repeat.
  lemma CommitIsSafe(w: World, d: int)
    requires Safe(w)
    ensures Safe(Next(w, Commit(d)))
  {
    var p := PhaseOf(w, d);
    if p.Applying? && p.ids != [] && p.ids[0] in w.outbox {
      var v, id := Next(w, Commit(d)), p.ids[0];
      assert Holds(w.phases, d, id);
      forall e, other | Holds(v.phases, e, other)
        ensures Holds(w.phases, e, other) && v.phases[e] == w.phases[e] && Pending(v.outbox, other)
        ensures v.outbox[other].key in v.inbox <==> w.outbox[other].key in w.inbox
      {
        assert e != d && Holds(w.phases, e, other) && other != id;
      }
      LocksShrink(w.phases, v.phases, w.outbox, v.outbox, w.inbox, v.inbox);
    }
  }

  lemma RowsAfterFailure(outbox: map<string, Row>, dead: map<string, DeadRow>, first: map<string, Row>,
                         id: string, r: Row)
    requires RowsKnown(outbox, dead, first) && id in outbox && r.key == outbox[id].key && r.body == outbox[id].body
    ensures RowsKnown(outbox[id := r], dead, first)
    ensures RowsKnown(outbox - {id}, dead[id := Buried(r)], first)
  {
  }

  lemma RowsAfterEnqueue(outbox: map<string, Row>, dead: map<string, DeadRow>, first: map<string, Row>,
                         id: string, r: Row)
    requires Injective(first) && RowsKnown(outbox, dead, first) && id !in first
    requires forall a :: a in first ==> first[a].key != r.key
    ensures Injective(first[id := r]) && RowsKnown(outbox[id := r], dead, first[id := r])
  {
  }

  lemma RowsAfterRetry(outbox: map<string, Row>, dead: map<string, DeadRow>, first: map<string, Row>,
                       id: string, n: int)
    requires RowsKnown(outbox, dead, first) && id in dead
    ensures RowsKnown(outbox[id := Revived(dead[id], n)], dead - {id}, first)
  {
  }

  // Changing or removing a row nobody holds, while d goes to a phase without a lock.
  lemma LocksAfterFailure(phases: map<int, Phase>, d: int, p: Phase,
                          outbox: map<string, Row>, outbox': map<string, Row>, inbox: set<string>, id: string)
    requires LocksHeld(phases, outbox, inbox) && !p.Applying?
    requires forall o :: o != d ==> !Holds(phases, o, id)
    requires forall other :: other != id && other in outbox ==> other in outbox' && outbox'[other] == outbox[other]
    ensures LocksHeld(phases[d := p], outbox', inbox)
  {
    var after := phases[d := p];
    forall e, other | Holds(after, e, other)
      ensures Holds(phases, e, other) && after[e] == phases[e] && Pending(outbox', other)
      ensures outbox'[other].key in inbox <==> outbox[other].key in inbox
    {
      assert e != d && Holds(phases, e, other);
    }
    LocksShrink(phases, after, outbox, outbox', inbox, inbox);
  }

  lemma RecordFailureIsSafe(w: World, d: int, now: int, window: int)
    requires Safe(w)
    ensures Safe(Next(w, RecordFailure(d, now, window)))
  {
    var p := PhaseOf(w, d);
    var v := Next(w, RecordFailure(d, now, window));
    if v != w {
      var id := p.ids[0];
      if id in w.outbox {
        assert forall o :: o != d ==> !Holds(w.phases, o, id);
        RowsAfterFailure(w.outbox, w.dead, w.first, id, Failed(w.outbox[id], now));
        LocksAfterFailure(w.phases, d, v.phases[d], w.outbox, v.outbox, w.inbox, id);
      } else {
        MoveIsSafe(w, d, Idle);
      }
    }
  }

  lemma EnqueueIsSafe(w: World, id: string, key: string, body: Body, createdAt: int)
    requires Safe(w)
    ensures Safe(Next(w, Enqueue(id, key, body, createdAt)))
  {
    var v := Next(w, Enqueue(id, key, body, createdAt));
    if v != w {
      RowsAfterEnqueue(w.outbox, w.dead, w.first, id, v.outbox[id]);
      LocksShrink(w.phases, v.phases, w.outbox, v.outbox, w.inbox, v.inbox);
    }
  }

  lemma RetryLeavesLocks(w: World, outbox: map<string, Row>, id: string)
    requires LocksHeld(w.phases, w.outbox, w.inbox) && id !in w.outbox
    requires forall other :: other in w.outbox ==> other in outbox && outbox[other] == w.outbox[other]
    ensures LocksHeld(w.phases, outbox, w.inbox)
  {
    LocksShrink(w.phases, w.phases, w.outbox, outbox, w.inbox, w.inbox);
  }

  lemma RetryIsSafe(w: World, id: string)
    requires Safe(w)
    ensures Safe(Next(w, Retry(id)))
  {
    if id in w.dead && w.dead[id].number > 0 {
      RowsAfterRetry(w.outbox, w.dead, w.first, id, w.lastNumber + 1);
      RetryLeavesLocks(w, w.outbox[id := Revived(w.dead[id], w.lastNumber + 1)], id);
    }
  }

  lemma StepIsSafe(w: World, step: Step)
    requires Safe(w)
    ensures Safe(Next(w, step))
  {
    match step
    case Enqueue(id, key, body, createdAt) => EnqueueIsSafe(w, id, key, body, createdAt);
    case Retry(id) => RetryIsSafe(w, id);
    case List(d, batch) => MoveIsSafe(w, d, Listed(batch));
    case Stop(d) => MoveIsSafe(w, d, Idle);
    case Take(d) => TakeIsSafe(w, d);
    case Commit(d) => CommitIsSafe(w, d);
    case Rollback(d) => if Next(w, step) != w { MoveIsSafe(w, d, Failing(PhaseOf(w, d).ids)); }
    case RecordFailure(d, now, window) => RecordFailureIsSafe(w, d, now, window);
  }

  lemma {:induction false} RunIsSafe(w: World, steps: seq<Step>)
    requires Safe(w)
    ensures Safe(Execute(w, steps))
    decreases |steps|
  {
    if steps != [] {
      StepIsSafe(w, steps[0]);
      RunIsSafe(Next(w, steps[0]), steps[1..]);
    }
  }

  // With any number of deliverers, failures, crashes, dead letters and retries, the handler of
  // an idempotency key commits at most once.
  lemma AppliedAtMostOnce(steps: seq<Step>)
    ensures var log := Execute(EMPTY, steps).log; forall i, j :: 0 <= i < j < |log| ==> log[i].key != log[j].key
  {
    RunIsSafe(EMPTY, steps);
  }

  // --- Each sequence belongs to one key ---------------------------------------------

  // Distinct sequences: what the row and snapshot guards of the handlers rely on.
  ghost predicate DistinctNumbers(log: seq<Entry>) {
    forall i, j :: 0 <= i < j < |log| ==> log[i].number != log[j].number
  }

  predicate RowUses(r: Row, n: int, key: string) {
    r.key == key && (r.number == n || r.replayNumber == Some(n))
  }

  // Sequence n occurs with this key in an outbox row, a dead letter or an applied entry.
  ghost predicate Uses(w: World, n: int, key: string) {
    || (exists id :: id in w.outbox && RowUses(w.outbox[id], n, key))
    || (exists id :: DeadUses(w.dead, id, n, key))
    || (exists i :: 0 <= i < |w.log| && w.log[i].key == key && w.log[i].number == n)
  }

  ghost predicate OneKeyEach(w: World) {
    && (forall n, key :: Uses(w, n, key) ==> n <= w.lastNumber)
    && (forall n, a, b :: Uses(w, n, a) && Uses(w, n, b) ==> a == b)
  }

  predicate DeadUses(dead: map<string, DeadRow>, id: string, n: int, key: string) {
    id in dead && dead[id].key == key && dead[id].number == n
  }

  // The step gives the next sequence, n, to this key.
  ghost predicate Numbers(w: World, step: Step, n: int, key: string) {
    && n == w.lastNumber + 1 == Next(w, step).lastNumber
    && ((step.Enqueue? && key == step.key) || (step.Retry? && step.id in w.dead && key == w.dead[step.id].key))
  }

  lemma RowAfterStep(w: World, step: Step, id: string, n: int, key: string)
    requires id in Next(w, step).outbox && RowUses(Next(w, step).outbox[id], n, key)
    ensures (id in w.outbox && RowUses(w.outbox[id], n, key)) || DeadUses(w.dead, id, n, key)
            || Numbers(w, step, n, key)
  {
    match step
    case Enqueue(_, _, _, _) =>
    case Retry(_) =>
    case Commit(_) =>
    case RecordFailure(_, _, _) =>
    case _ => PhaseStepsKeepTables(w, step);
  }

  lemma DeadAfterStep(w: World, step: Step, id: string, n: int, key: string)
    requires DeadUses(Next(w, step).dead, id, n, key)
    ensures (id in w.outbox && RowUses(w.outbox[id], n, key)) || DeadUses(w.dead, id, n, key)
  {
  }

  lemma LogAfterStep(w: World, step: Step, i: nat)
    requires i < |Next(w, step).log|
    ensures var e := Next(w, step).log[i];
            (i < |w.log| && e == w.log[i]) || exists id :: id in w.outbox && RowUses(w.outbox[id], e.number, e.key)
  {
    if i >= |w.log| {
      var id := PhaseOf(w, step.d).ids[0];
      assert RowUses(w.outbox[id], Next(w, step).log[i].number, Next(w, step).log[i].key);
    }
  }

  // A step adds at most the next sequence, for one key.
  lemma StepUses(w: World, step: Step, n: int, key: string)
    requires Uses(Next(w, step), n, key)
    ensures Uses(w, n, key) || Numbers(w, step, n, key)
  {
    var v := Next(w, step);
    if id :| id in v.outbox && RowUses(v.outbox[id], n, key) {
      RowAfterStep(w, step, id, n, key);
    } else if id :| id in v.dead && DeadUses(v.dead, id, n, key) {
      DeadAfterStep(w, step, id, n, key);
    } else {
      var i :| 0 <= i < |v.log| && v.log[i].key == key && v.log[i].number == n;
      LogAfterStep(w, step, i);
    }
  }

  lemma StepKeepsOneKeyEach(w: World, step: Step)
    requires OneKeyEach(w)
    ensures OneKeyEach(Next(w, step))
  {
    var v := Next(w, step);
    forall n, key | Uses(v, n, key) ensures n <= v.lastNumber {
      StepUses(w, step, n, key);
    }
    forall n, a, b | Uses(v, n, a) && Uses(v, n, b) ensures a == b {
      StepUses(w, step, n, a);
      StepUses(w, step, n, b);
    }
  }

  lemma {:induction false} RunKeepsOneKeyEach(w: World, steps: seq<Step>)
    requires OneKeyEach(w)
    ensures OneKeyEach(Execute(w, steps))
    decreases |steps|
  {
    if steps != [] {
      StepKeepsOneKeyEach(w, steps[0]);
      RunKeepsOneKeyEach(Next(w, steps[0]), steps[1..]);
    }
  }

  // In every run, however often messages are dead-lettered and retried, no two applied messages
  // carry the same sequence.
  lemma AppliedNumbersAreDistinct(steps: seq<Step>)
    ensures DistinctNumbers(Execute(EMPTY, steps).log)
  {
    var w := Execute(EMPTY, steps);
    RunIsSafe(EMPTY, steps);
    RunKeepsOneKeyEach(EMPTY, steps);
    forall i, j | 0 <= i < j < |w.log| ensures w.log[i].number != w.log[j].number {
      assert Uses(w, w.log[i].number, w.log[i].key) && Uses(w, w.log[j].number, w.log[j].key);
    }
  }

  // --- Sequence numbers across dead letters -----------------------------------------

  // The transaction that moves row id to the dead letters.
  ghost predicate Buries(w: World, step: Step, id: string) {
    && step.RecordFailure?
    && PhaseOf(w, step.d).Failing? && PhaseOf(w, step.d).ids != [] && PhaseOf(w, step.d).ids[0] == id
    && id in w.outbox && !LockedByOther(w, step.d, id)
    && GivesUp(w.outbox[id], step.now, step.window)
  }

  // Dead-letters a message that was already retried once and is not applied yet.
  ghost predicate Misnumbers(w: World, step: Step) {
    exists id :: Buries(w, step, id) && w.outbox[id].replayNumber.Some? && w.outbox[id].key !in w.inbox
  }

  // The sequence a message is applied with is the one it was first sent with.
  predicate RowKeepsNumber(first: map<string, Row>, id: string, r: Row, last: int) {
    && id in first && Effective(r) == first[id].number && r.number <= last
    && (r.replayNumber.Some? ==> r.number > first[id].number)
  }

  predicate DeadKeepsNumber(first: map<string, Row>, id: string, x: DeadRow) {
    id in first && x.number == first[id].number
  }

  ghost predicate FirstNumbers(first: map<string, Row>, last: int) {
    && 0 <= last
    && (forall id :: id in first ==> 0 < first[id].number <= last)
    && (forall a, b :: a in first && b in first && first[a].number == first[b].number ==> a == b)
  }

  // What is applied already may be renumbered: it is not applied again.
  ghost predicate NumbersKept(outbox: map<string, Row>, dead: map<string, DeadRow>, first: map<string, Row>,
                              last: int, inbox: set<string>) {
    && (forall id :: id in outbox && outbox[id].key !in inbox ==> RowKeepsNumber(first, id, outbox[id], last))
    && (forall id :: id in dead && dead[id].key !in inbox ==> DeadKeepsNumber(first, id, dead[id]))
    && FirstNumbers(first, last)
  }

  predicate FromMessage(first: map<string, Row>, e: Entry) {
    exists id :: id in first && e == Entry(first[id].key, first[id].body, first[id].number)
  }

  ghost predicate AllFromMessages(first: map<string, Row>, log: seq<Entry>) {
    forall i :: 0 <= i < |log| ==> FromMessage(first, log[i])
  }

  ghost predicate Original(w: World) {
    NumbersKept(w.outbox, w.dead, w.first, w.lastNumber, w.inbox) && AllFromMessages(w.first, w.log)
  }

  lemma NumbersAfterRowWrite(outbox: map<string, Row>, dead: map<string, DeadRow>, first: map<string, Row>, last: int,
                             inbox: set<string>, id: string, r: Row)
    requires NumbersKept(outbox, dead, first, last, inbox) && id in outbox && r.key == outbox[id].key
    requires r.number == outbox[id].number && r.replayNumber == outbox[id].replayNumber
    ensures NumbersKept(outbox[id := r], dead, first, last, inbox)
    ensures NumbersKept(outbox - {id}, dead[id := Buried(r)], first, last, inbox)
       <==> r.replayNumber.None? || r.key in inbox
  {
    var after := dead[id := Buried(r)];
    if r.key !in inbox {
      assert RowKeepsNumber(first, id, outbox[id], last);
      assert DeadKeepsNumber(first, id, after[id]) <==> r.replayNumber.None?;
    }
  }

  lemma NumbersAfterRetry(outbox: map<string, Row>, dead: map<string, DeadRow>, first: map<string, Row>, last: int,
                          inbox: set<string>, id: string)
    requires NumbersKept(outbox, dead, first, last, inbox) && id in dead
    ensures NumbersKept(outbox[id := Revived(dead[id], last + 1)], dead - {id}, first, last + 1, inbox)
  {
    var after := outbox[id := Revived(dead[id], last + 1)];
    forall other | other in after && after[other].key !in inbox
      ensures RowKeepsNumber(first, other, after[other], last + 1)
    {
      if other == id {
        assert DeadKeepsNumber(first, id, dead[id]);
      } else {
        assert RowKeepsNumber(first, other, outbox[other], last);
      }
    }
  }

  lemma OriginalAfterEnqueue(w: World, id: string, r: Row)
    requires Original(w) && id !in w.first && r.number == w.lastNumber + 1 && r.replayNumber.None?
    ensures NumbersKept(w.outbox[id := r], w.dead, w.first[id := r], r.number, w.inbox)
    ensures AllFromMessages(w.first[id := r], w.log)
  {
    var first, outbox := w.first[id := r], w.outbox[id := r];
    forall other | other in outbox && outbox[other].key !in w.inbox
      ensures RowKeepsNumber(first, other, outbox[other], r.number)
    {
      assert other == id || RowKeepsNumber(w.first, other, w.outbox[other], w.lastNumber);
    }
    forall other | other in w.dead && w.dead[other].key !in w.inbox
      ensures DeadKeepsNumber(first, other, w.dead[other])
    {
      assert DeadKeepsNumber(w.first, other, w.dead[other]);
    }
    assert FirstNumbers(first, r.number);
    forall i | 0 <= i < |w.log| ensures FromMessage(first, w.log[i]) {
      assert FromMessage(w.first, w.log[i]);
      var m :| m in w.first && w.log[i] == Entry(w.first[m].key, w.first[m].body, w.first[m].number);
      assert first[m] == w.first[m];
    }
  }

  lemma LogOfMessages(first: map<string, Row>, log: seq<Entry>, e: Entry)
    requires AllFromMessages(first, log) && FromMessage(first, e)
    ensures AllFromMessages(first, log + [e])
  {
  }

  // The entry a commit logs carries the message as it was first sent.
  lemma EntryIsFromMessage(w: World, id: string)
    requires Safe(w) && Original(w) && id in w.outbox && w.outbox[id].key !in w.inbox
    ensures FromMessage(w.first, Entry(w.outbox[id].key, w.outbox[id].body, Effective(w.outbox[id])))
  {
    assert RowKeepsNumber(w.first, id, w.outbox[id], w.lastNumber);
    assert Known(w.first, id, w.outbox[id].key, w.outbox[id].body);
  }

  lemma MoreAppliedKeepsNumbers(outbox: map<string, Row>, dead: map<string, DeadRow>, first: map<string, Row>,
                                last: int, inbox: set<string>, more: set<string>)
    requires NumbersKept(outbox, dead, first, last, inbox) && inbox <= more
    ensures NumbersKept(outbox, dead, first, last, more)
  {
  }

  lemma OriginalAfterCommit(w: World, d: int)
    requires Safe(w) && Original(w)
    ensures Original(Next(w, Commit(d)))
  {
    var p, v := PhaseOf(w, d), Next(w, Commit(d));
    if p.Applying? && p.ids != [] && p.ids[0] in w.outbox {
      var id := p.ids[0];
      NumbersAfterRowWrite(w.outbox, w.dead, w.first, w.lastNumber, w.inbox, id, v.outbox[id]);
      MoreAppliedKeepsNumbers(v.outbox, w.dead, w.first, w.lastNumber, w.inbox, v.inbox);
      assert Holds(w.phases, d, id);
      if !p.duplicate {
        EntryIsFromMessage(w, id);
        LogOfMessages(w.first, w.log, Entry(w.outbox[id].key, w.outbox[id].body, Effective(w.outbox[id])));
      }
    }
  }

  // A failure either writes its row back or, giving up, buries it.
  lemma FailureWrites(w: World, step: Step)
    requires step.RecordFailure? && Next(w, step) != w && PhaseOf(w, step.d).ids[0] in w.outbox
    ensures var id := PhaseOf(w, step.d).ids[0];
            var v := Next(w, step);
            var r := Failed(w.outbox[id], step.now);
            && v.first == w.first && v.lastNumber == w.lastNumber && v.log == w.log && v.inbox == w.inbox
            && (Buries(w, step, id) ==> v.outbox == w.outbox - {id} && v.dead == w.dead[id := Buried(r)])
            && (!Buries(w, step, id) ==> v.outbox == w.outbox[id := r] && v.dead == w.dead)
  {
  }

  lemma OriginalAfterFailure(w: World, step: Step)
    requires Safe(w) && Original(w) && step.RecordFailure?
    ensures Original(Next(w, step)) <==> !Misnumbers(w, step)
  {
    if Next(w, step) != w && PhaseOf(w, step.d).ids[0] in w.outbox {
      var id := PhaseOf(w, step.d).ids[0];
      FailureWrites(w, step);
      NumbersAfterRowWrite(w.outbox, w.dead, w.first, w.lastNumber, w.inbox, id, Failed(w.outbox[id], step.now));
      assert forall other :: Buries(w, step, other) ==> other == id;
    }
  }

  lemma PhaseStepsKeepTables(w: World, step: Step)
    requires step.List? || step.Stop? || step.Take? || step.Rollback?
    ensures Next(w, step) == w.(phases := Next(w, step).phases)
  {
  }

  lemma EnqueueKeepsNumbers(w: World, step: Step)
    requires Original(w) && step.Enqueue?
    ensures Original(Next(w, step))
  {
    if Next(w, step) != w { OriginalAfterEnqueue(w, step.id, Next(w, step).outbox[step.id]); }
  }

  lemma RetryKeepsNumbers(w: World, id: string)
    requires Original(w)
    ensures Original(Next(w, Retry(id)))
  {
    if Next(w, Retry(id)) != w { NumbersAfterRetry(w.outbox, w.dead, w.first, w.lastNumber, w.inbox, id); }
  }

  lemma OtherStepsKeepNumbers(w: World, step: Step)
    requires Safe(w) && Original(w) && !step.RecordFailure?
    ensures Original(Next(w, step))
  {
    match step
    case Commit(d) => OriginalAfterCommit(w, d);
    case Enqueue(_, _, _, _) => EnqueueKeepsNumbers(w, step);
    case Retry(id) => RetryKeepsNumbers(w, id);
    case _ => PhaseStepsKeepTables(w, step);
  }

  // A step keeps the original sequence of every message that is still to be applied exactly when
  // it does not dead-letter one that was already retried once.
  lemma StepKeepsNumbersExactly(w: World, step: Step)
    requires Safe(w) && Original(w)
    ensures Original(Next(w, step)) <==> !Misnumbers(w, step)
  {
    if step.RecordFailure? {
      OriginalAfterFailure(w, step);
    } else {
      OtherStepsKeepNumbers(w, step);
    }
  }

  // Runs in which no message still to be applied is dead-lettered a second time.
  ghost predicate OneCycle(w: World, steps: seq<Step>)
    decreases |steps|
  {
    steps == [] || (!Misnumbers(w, steps[0]) && OneCycle(Next(w, steps[0]), steps[1..]))
  }

  lemma {:induction false} RunKeepsNumbers(w: World, steps: seq<Step>)
    requires Safe(w) && Original(w) && OneCycle(w, steps)
    ensures Safe(Execute(w, steps)) && Original(Execute(w, steps))
    decreases |steps|
  {
    if steps != [] {
      StepIsSafe(w, steps[0]);
      StepKeepsNumbersExactly(w, steps[0]);
      RunKeepsNumbers(Next(w, steps[0]), steps[1..]);
    }
  }

  // While no message still to be applied is dead-lettered twice, every applied message carries the
  // sequence it was first sent with.
  lemma AppliedWithOriginalNumbers(steps: seq<Step>)
    requires OneCycle(EMPTY, steps)
    ensures var w := Execute(EMPTY, steps); forall i :: 0 <= i < |w.log| ==> FromMessage(w.first, w.log[i])
  {
    RunKeepsNumbers(EMPTY, steps);
  }

  // The second time around the copied sequence is the one of the retry, not the original.
  lemma SecondBurialRenumbers(r: Row, first: int, second: int)
    requires r.replayNumber.None? && r.number < first < second
    ensures Effective(Revived(Buried(r), first)) == Effective(r)
    ensures Effective(Revived(Buried(Revived(Buried(r), first)), second)) == first
  {
  }

  // --- Order without dead letters ---------------------------------------------------

  // A stretch of the sending order that starts no later than the first undelivered message.
  predicate At(sent: seq<string>, ids: seq<string>, j: nat) {
    j + |ids| <= |sent| && ids == sent[j..j + |ids|]
  }

  predicate Stretch(sent: seq<string>, ids: seq<string>, applied: nat) {
    exists j: nat :: j <= applied && At(sent, ids, j)
  }

  function IdsOf(p: Phase): seq<string> {
    if p.Idle? then [] else p.ids
  }

  // The sending order is the delivery order.
  ghost predicate SentInOrder(outbox: map<string, Row>, sent: seq<string>) {
    && (forall id :: id in outbox <==> id in sent)
    && (forall i, j :: 0 <= i < j < |sent| ==> sent[i] != sent[j] && Before(outbox[sent[i]], outbox[sent[j]]))
  }

  ghost predicate DeliveredUpTo(outbox: map<string, Row>, sent: seq<string>, k: nat) {
    k <= |sent| && forall i :: 0 <= i < |sent| ==> sent[i] in outbox && (outbox[sent[i]].delivered <==> i < k)
  }

  lemma OrderIsIndex(outbox: map<string, Row>, sent: seq<string>, i: nat, j: nat)
    requires SentInOrder(outbox, sent) && i < |sent| && j < |sent|
    ensures Before(outbox[sent[i]], outbox[sent[j]]) <==> i < j
  {
  }

  // The listing query returns the undelivered messages in sending order, from the first one.
  lemma {:induction false} ListingPositions(outbox: map<string, Row>, sent: seq<string>, k: nat, ids: seq<string>,
                                            n: nat)
    requires SentInOrder(outbox, sent) && DeliveredUpTo(outbox, sent, k)
    requires IsListing(outbox, ids) && n <= |ids|
    ensures k + n <= |sent|
    ensures forall r :: 0 <= r < n ==> ids[r] == sent[k + r]
  {
    if n > 0 {
      var p := n - 1;
      ListingPositions(outbox, sent, k, ids, p);
      var q := PendingIndex(outbox, sent, k, ids[p]);
      if p > 0 {
        assert ids[p - 1] == sent[k + p - 1] && Before(outbox[ids[p - 1]], outbox[ids[p]]);
        OrderIsIndex(outbox, sent, k + p - 1, q);
      }
      NothingSkipped(outbox, sent, k, ids, p, q);
    }
  }

  lemma PendingIndex(outbox: map<string, Row>, sent: seq<string>, k: nat, id: string) returns (q: nat)
    requires SentInOrder(outbox, sent) && DeliveredUpTo(outbox, sent, k) && Pending(outbox, id)
    ensures k <= q < |sent| && sent[q] == id
  {
    q :| 0 <= q < |sent| && sent[q] == id;
  }

  // The query cannot jump over an undelivered message.
  lemma NothingSkipped(outbox: map<string, Row>, sent: seq<string>, k: nat, ids: seq<string>, p: nat, q: nat)
    requires SentInOrder(outbox, sent) && DeliveredUpTo(outbox, sent, k) && IsListing(outbox, ids)
    requires p < |ids| && k + p <= q < |sent| && sent[q] == ids[p]
    requires forall r :: 0 <= r < p ==> ids[r] == sent[k + r]
    ensures ids[p] == sent[k + p]
  {
    var next := sent[k + p];
    assert Pending(outbox, next);
    OrderIsIndex(outbox, sent, q, k + p);
    assert next in ids;
    var r :| 0 <= r < |ids| && ids[r] == next;
    assert r == p;
  }

  // The applied entries are the first |log| messages sent, and these are the delivered ones.
  ghost predicate AppliedPrefix(outbox: map<string, Row>, sent: seq<string>, log: seq<Entry>) {
    && DeliveredUpTo(outbox, sent, |log|)
    && (forall i :: 0 <= i < |log| ==>
          log[i] == Entry(outbox[sent[i]].key, outbox[sent[i]].body, Effective(outbox[sent[i]])))
  }

  ghost predicate PhasesBehind(phases: map<int, Phase>, sent: seq<string>, k: nat) {
    forall d :: d in phases ==> Stretch(sent, IdsOf(phases[d]), k)
  }

  ghost predicate InboxIsLog(inbox: set<string>, log: seq<Entry>) {
    forall key :: key in inbox ==> exists i :: 0 <= i < |log| && log[i].key == key
  }

  ghost predicate NumbersBelow(w: World) {
    forall id :: id in w.outbox ==>
      w.outbox[id].replayNumber.None? && w.outbox[id].number <= w.lastNumber && w.outbox[id].createdAt <= w.lastCreated
  }

  ghost predicate InOrder(w: World) {
    && w.dead == map[] && w.first.Keys == w.outbox.Keys
    && SentInOrder(w.outbox, w.sent) && AppliedPrefix(w.outbox, w.sent, w.log)
    && InboxIsLog(w.inbox, w.log) && PhasesBehind(w.phases, w.sent, |w.log|) && NumbersBelow(w)
  }

  lemma StretchTail(sent: seq<string>, ids: seq<string>, k: nat, past: nat)
    requires ids != [] && At(sent, ids, k)
    requires k < past
    ensures Stretch(sent, ids[1..], past)
  {
    assert At(sent, ids[1..], k + 1);
  }

  lemma StretchGrows(sent: seq<string>, ids: seq<string>, k: nat, k': nat, more: seq<string>)
    requires Stretch(sent, ids, k) && k <= k'
    ensures Stretch(sent + more, ids, k')
  {
    var j: nat :| j <= k && At(sent, ids, j);
    assert At(sent + more, ids, j);
  }

  // The head of a batch is either already delivered or the first undelivered message.
  lemma HeadOfBatch(w: World, ids: seq<string>) returns (j: nat)
    requires InOrder(w) && ids != [] && Stretch(w.sent, ids, |w.log|)
    ensures j <= |w.log| && At(w.sent, ids, j) && w.sent[j] == ids[0] && ids[0] in w.outbox
    ensures w.outbox[ids[0]].delivered <==> j < |w.log|
  {
    j :| j <= |w.log| && At(w.sent, ids, j);
    assert w.sent[j] == ids[0];
  }

  lemma MoveStaysInOrder(w: World, d: int, p: Phase)
    requires InOrder(w) && Stretch(w.sent, IdsOf(p), |w.log|)
    ensures InOrder(Move(w, d, p))
  {
  }

  lemma TakeStaysInOrder(w: World, d: int)
    requires InOrder(w)
    ensures InOrder(Next(w, Take(d)))
  {
    var p, v := PhaseOf(w, d), Next(w, Take(d));
    if p.Listed? && p.ids != [] {
      var j := HeadOfBatch(w, p.ids);
      assert At(w.sent, [], 0);
      if v.phases[d].Listed? {
        StretchTail(w.sent, p.ids, j, |w.log|);
      }
      MoveStaysInOrder(w, d, v.phases[d]);
    }
  }

  // Marking the first undelivered message delivered and logging it extends the prefix by one.
  lemma PrefixExtends(outbox: map<string, Row>, sent: seq<string>, log: seq<Entry>, id: string)
    requires SentInOrder(outbox, sent) && AppliedPrefix(outbox, sent, log)
    requires |log| < |sent| && sent[|log|] == id
    ensures var outbox' := outbox[id := outbox[id].(delivered := true)];
            var log' := log + [Entry(outbox[id].key, outbox[id].body, Effective(outbox[id]))];
            SentInOrder(outbox', sent) && AppliedPrefix(outbox', sent, log')
  {
    var outbox' := outbox[id := outbox[id].(delivered := true)];
    forall i, j | 0 <= i < j < |sent|
      ensures sent[i] != sent[j] && Before(outbox'[sent[i]], outbox'[sent[j]])
    {
      assert Before(outbox[sent[i]], outbox[sent[j]]);
    }
    forall i | 0 <= i < |sent| ensures outbox'[sent[i]].delivered <==> i < |log| + 1 {
      assert i != |log| ==> sent[i] != id;
    }
  }

  lemma CommitStaysInOrder(w: World, d: int)
    requires Safe(w) && InOrder(w)
    ensures InOrder(Next(w, Commit(d)))
  {
    var p := PhaseOf(w, d);
    if p.Applying? && p.ids != [] {
      assert Holds(w.phases, d, p.ids[0]);
      var j := HeadOfBatch(w, p.ids);
      FirstUndeliveredIsNew(w, p.ids[0], j);
      CommitExtendsOrder(w, d, j);
    }
  }

  // What the commit of the first undelivered message leaves is in order, part by part.
  lemma DeliveredInOrder(w: World, v: World, id: string)
    requires InOrder(w) && id in w.outbox && v.outbox == w.outbox[id := w.outbox[id].(delivered := true)]
    requires v.sent == w.sent && v.dead == w.dead && v.first == w.first
    requires v.lastNumber == w.lastNumber && v.lastCreated == w.lastCreated
    requires SentInOrder(v.outbox, v.sent) && AppliedPrefix(v.outbox, v.sent, v.log)
    requires InboxIsLog(v.inbox, v.log) && PhasesBehind(v.phases, v.sent, |v.log|)
    ensures InOrder(v)
  {
  }

  lemma CommitExtendsOrder(w: World, d: int, j: nat)
    requires InOrder(w) && PhaseOf(w, d).Applying? && PhaseOf(w, d).ids != [] && !PhaseOf(w, d).duplicate
    requires At(w.sent, PhaseOf(w, d).ids, j) && j == |w.log| && w.sent[j] in w.outbox
    ensures InOrder(Next(w, Commit(d)))
  {
    var id, v := PhaseOf(w, d).ids[0], Next(w, Commit(d));
    assert w.sent[j] == id;
    CommitWrites(w, d);
    var e := Entry(w.outbox[id].key, w.outbox[id].body, Effective(w.outbox[id]));
    assert v.log == w.log + [e] && |v.log| == |w.log| + 1;
    PrefixExtends(w.outbox, w.sent, w.log, id);
    PhasesAfterCommit(w, d, j);
    InboxAfterCommit(w.inbox, w.log, e);
    DeliveredInOrder(w, v, id);
  }

  lemma InboxAfterCommit(inbox: set<string>, log: seq<Entry>, e: Entry)
    requires InboxIsLog(inbox, log)
    ensures InboxIsLog(inbox + {e.key}, log + [e])
  {
    forall key | key in inbox + {e.key} ensures exists i :: 0 <= i < |log + [e]| && (log + [e])[i].key == key {
      if key in inbox {
        var i :| 0 <= i < |log| && log[i].key == key;
        assert (log + [e])[i].key == key;
      } else {
        assert (log + [e])[|log|].key == key;
      }
    }
  }

  lemma PhasesAfterCommit(w: World, d: int, j: nat)
    requires PhasesBehind(w.phases, w.sent, |w.log|)
    requires PhaseOf(w, d).Applying? && PhaseOf(w, d).ids != [] && At(w.sent, PhaseOf(w, d).ids, j) && j == |w.log|
    ensures PhasesBehind(w.phases[d := Listed(PhaseOf(w, d).ids[1..])], w.sent, |w.log| + 1)
  {
    StretchTail(w.sent, PhaseOf(w, d).ids, j, |w.log| + 1);
    forall e | e in w.phases && e != d ensures Stretch(w.sent, IdsOf(w.phases[e]), |w.log| + 1) {
      StretchGrows(w.sent, IdsOf(w.phases[e]), |w.log|, |w.log| + 1, []);
      assert w.sent + [] == w.sent;
    }
  }

  lemma FirstUndeliveredIsNew(w: World, id: string, j: nat)
    requires Safe(w) && InOrder(w) && j == |w.log| < |w.sent| && w.sent[j] == id
    ensures w.outbox[id].key !in w.inbox
  {
    forall i | 0 <= i < |w.log| ensures w.log[i].key != w.outbox[id].key {
      var other := w.sent[i];
      assert other != id;
      assert Known(w.first, id, w.outbox[id].key, w.outbox[id].body);
      assert Known(w.first, other, w.outbox[other].key, w.outbox[other].body);
    }
  }

  lemma EnqueueStaysInOrder(w: World, id: string, key: string, body: Body, createdAt: int)
    requires InOrder(w)
    ensures InOrder(Next(w, Enqueue(id, key, body, createdAt)))
  {
    var v := Next(w, Enqueue(id, key, body, createdAt));
    if v != w {
      assert id !in w.sent;
      assert v.sent == w.sent + [id];
      forall i, j | 0 <= i < j < |v.sent|
        ensures v.sent[i] != v.sent[j] && Before(v.outbox[v.sent[i]], v.outbox[v.sent[j]])
      {
        assert v.sent[i] == w.sent[i] && w.sent[i] in w.outbox;
        if j < |w.sent| { assert Before(w.outbox[w.sent[i]], w.outbox[w.sent[j]]); }
      }
      forall e | e in v.phases ensures Stretch(v.sent, IdsOf(v.phases[e]), |v.log|) {
        StretchGrows(w.sent, IdsOf(w.phases[e]), |w.log|, |w.log|, [id]);
      }
    }
  }

  lemma FailureStaysInOrder(w: World, step: Step)
    requires InOrder(w) && step.RecordFailure? && !(exists id :: Buries(w, step, id))
    ensures InOrder(Next(w, step))
  {
    var p, v := PhaseOf(w, step.d), Next(w, step);
    if v != w {
      var id := p.ids[0];
      assert At(w.sent, [], 0);
      MoveStaysInOrder(w, step.d, Idle);
      if id in w.outbox {
        assert !Buries(w, step, id);
        var r := Failed(w.outbox[id], step.now);
        assert v.outbox == w.outbox[id := r];
        RewriteStaysInOrder(Move(w, step.d, Idle), id, r);
      }
    }
  }

  lemma RewriteStaysInOrder(w: World, id: string, r: Row)
    requires InOrder(w) && id in w.outbox
    requires w.outbox[id] == r.(attempts := w.outbox[id].attempts, firstFailedAt := w.outbox[id].firstFailedAt)
    ensures InOrder(w.(outbox := w.outbox[id := r]))
  {
    var outbox := w.outbox[id := r];
    forall i, j | 0 <= i < j < |w.sent|
      ensures w.sent[i] != w.sent[j] && Before(outbox[w.sent[i]], outbox[w.sent[j]])
    {
      assert Before(w.outbox[w.sent[i]], w.outbox[w.sent[j]]);
    }
    assert outbox.Keys == w.outbox.Keys;
  }

  lemma ListStaysInOrder(w: World, d: int, batch: seq<string>)
    requires InOrder(w)
    ensures InOrder(Next(w, List(d, batch)))
  {
    if PhaseOf(w, d).Idle? && IsListing(w.outbox, batch) {
      ListingPositions(w.outbox, w.sent, |w.log|, batch, |batch|);
      assert At(w.sent, batch, |w.log|);
      MoveStaysInOrder(w, d, Listed(batch));
    }
  }

  lemma StopStaysInOrder(w: World, d: int)
    requires InOrder(w)
    ensures InOrder(Next(w, Stop(d)))
  {
    assert At(w.sent, [], 0);
    MoveStaysInOrder(w, d, Idle);
  }

  lemma RollbackStaysInOrder(w: World, d: int)
    requires InOrder(w)
    ensures InOrder(Next(w, Rollback(d)))
  {
    if PhaseOf(w, d).Applying? { MoveStaysInOrder(w, d, Failing(PhaseOf(w, d).ids)); }
  }

  // Without dead-lettering there is no dead letter to retry.
  lemma RetryStaysInOrder(w: World, id: string)
    requires InOrder(w)
    ensures InOrder(Next(w, Retry(id)))
  {
  }

  lemma StepStaysInOrder(w: World, step: Step)
    requires Safe(w) && InOrder(w) && !(exists id :: Buries(w, step, id))
    ensures InOrder(Next(w, step))
  {
    match step
    case Enqueue(id, key, body, createdAt) => EnqueueStaysInOrder(w, id, key, body, createdAt);
    case Retry(id) => RetryStaysInOrder(w, id);
    case List(d, batch) => ListStaysInOrder(w, d, batch);
    case Stop(d) => StopStaysInOrder(w, d);
    case Take(d) => TakeStaysInOrder(w, d);
    case Commit(d) => CommitStaysInOrder(w, d);
    case Rollback(d) => RollbackStaysInOrder(w, d);
    case RecordFailure(_, _, _) => FailureStaysInOrder(w, step);
  }

  // Runs without dead-lettering.
  ghost predicate NoBurial(w: World, steps: seq<Step>)
    decreases |steps|
  {
    steps == [] || (!(exists id :: Buries(w, steps[0], id)) && NoBurial(Next(w, steps[0]), steps[1..]))
  }

  lemma {:induction false} RunStaysInOrder(w: World, steps: seq<Step>)
    requires Safe(w) && InOrder(w) && NoBurial(w, steps)
    ensures InOrder(Execute(w, steps))
    decreases |steps|
  {
    if steps != [] {
      StepIsSafe(w, steps[0]);
      StepStaysInOrder(w, steps[0]);
      RunStaysInOrder(Next(w, steps[0]), steps[1..]);
    }
  }

  // Without dead-lettering, and for any interleaving of any number of deliverers, the applied
  // messages are always the first ones of the outbox, in its order, and exactly the delivered ones.
  lemma AppliedIsPrefixOfOutbox(steps: seq<Step>)
    requires NoBurial(EMPTY, steps)
    ensures var w := Execute(EMPTY, steps);
            SentInOrder(w.outbox, w.sent) && AppliedPrefix(w.outbox, w.sent, w.log)
  {
    RunStaysInOrder(EMPTY, steps);
  }

  // --- The worker's pass over a batch -----------------------------------------------

  lemma {:induction false} ExecuteAppend(w: World, steps: seq<Step>, more: seq<Step>)
    ensures Execute(w, steps + more) == Execute(Execute(w, steps), more)
    decreases |steps|
  {
    if steps == [] {
      assert steps + more == more;
    } else {
      assert (steps + more)[1..] == steps[1..] + more;
      ExecuteAppend(Next(w, steps[0]), steps[1..], more);
    }
  }

  datatype DeliveryResult = DeliveryResult(
    delivered: nat, duplicates: nat, deadLettered: nat, failedMessageId: Option<string>, busy: bool)

  datatype RetryOutcome = Queued | NotFound | MissingOriginalSequence

  // The locks of the other deliverers are as before.
  ghost predicate OthersHold(before: map<int, Phase>, after: map<int, Phase>, d: int) {
    forall o, id :: o != d ==> (Holds(after, o, id) <==> Holds(before, o, id))
  }

  lemma OthersStillHold(before: map<int, Phase>, phases: map<int, Phase>, d: int, p: Phase)
    requires OthersHold(before, phases, d)
    ensures OthersHold(before, phases[d := p], d)
  {
    var after := phases[d := p];
    forall o, id | o != d ensures Holds(after, o, id) <==> Holds(before, o, id) {
      assert Holds(phases, o, id) <==> Holds(before, o, id);
    }
  }

  // This deliverer may take the message.
  ghost predicate MayTake(w: World, d: int, id: string) {
    && PhaseOf(w, d).Listed? && PhaseOf(w, d).ids != [] && PhaseOf(w, d).ids[0] == id
    && Pending(w.outbox, id) && !LockedByOther(w, d, id)
  }

  // What the recorded failure of a rolled-back attempt does to the tables.
  lemma RecordedFailure(w: World, d: int, id: string, now: int, window: int)
    requires MayTake(w, d, id)
    ensures var v := Next(Move(w, d, Failing(PhaseOf(w, d).ids)), RecordFailure(d, now, window));
            var r := Failed(w.outbox[id], now);
            v == if GivesUp(w.outbox[id], now, window)
                 then w.(outbox := w.outbox - {id}, dead := w.dead[id := Buried(r)],
                         phases := w.phases[d := Listed(PhaseOf(w, d).ids[1..])])
                 else w.(outbox := w.outbox[id := r], phases := w.phases[d := Idle])
  {
    var rolled := Move(w, d, Failing(PhaseOf(w, d).ids));
    assert forall o :: o != d ==> (Holds(rolled.phases, o, id) <==> Holds(w.phases, o, id));
    assert !LockedByOther(rolled, d, id);
  }

  // What take, roll back, record do to the tables.
  lemma FailedAttempt(w: World, d: int, id: string, now: int, window: int)
    requires MayTake(w, d, id)
    ensures var v := Execute(w, [Take(d), Rollback(d), RecordFailure(d, now, window)]);
            var r := Failed(w.outbox[id], now);
            v == if GivesUp(w.outbox[id], now, window)
                 then w.(outbox := w.outbox - {id}, dead := w.dead[id := Buried(r)],
                         phases := w.phases[d := Listed(PhaseOf(w, d).ids[1..])])
                 else w.(outbox := w.outbox[id := r], phases := w.phases[d := Idle])
  {
    var ids := PhaseOf(w, d).ids;
    var taken := Next(w, Take(d));
    assert taken == Move(w, d, Applying(ids, w.outbox[id].key in w.inbox));
    var rolled := Next(taken, Rollback(d));
    assert rolled == Move(w, d, Failing(ids));
    RecordedFailure(w, d, id, now, window);
    ExecuteThree(w, Take(d), Rollback(d), RecordFailure(d, now, window));
  }

  // What take and commit do.
  lemma CommittedAttempt(w: World, d: int, id: string)
    requires MayTake(w, d, id)
    ensures var v := Execute(w, [Take(d), Commit(d)]);
            var r := w.outbox[id];
            var marked := w.(outbox := w.outbox[id := r.(delivered := true)],
                             phases := w.phases[d := Listed(PhaseOf(w, d).ids[1..])]);
            v == if r.key in w.inbox then marked
                 else marked.(inbox := w.inbox + {r.key}, log := w.log + [Entry(r.key, r.body, Effective(r))])
  {
    var taken := Next(w, Take(d));
    assert taken == Move(w, d, Applying(PhaseOf(w, d).ids, w.outbox[id].key in w.inbox));
    ExecuteTwo(w, Take(d), Commit(d));
  }

  function CountIn(ids: seq<string>, s: set<string>): nat {
    if ids == [] then 0 else CountIn(ids[..|ids| - 1], s) + if ids[|ids| - 1] in s then 1 else 0
  }

  // The first done messages of the batch are through, dead-lettered or applied; the rest is pending.
  ghost predicate Through(ids: seq<string>, done: nat, failing: set<string>, before: map<string, Row>,
                          outbox: map<string, Row>, dead: set<string>, inbox: set<string>) {
    && (forall k :: 0 <= k < |ids| ==> ids[k] in before && (Pending(outbox, ids[k]) <==> done <= k))
    && (forall k :: 0 <= k < done && k < |ids| ==>
          if ids[k] in failing then ids[k] in dead else before[ids[k]].key in inbox)
  }

  // And the rest is as before the pass.
  ghost predicate PassedOver(ids: seq<string>, done: nat, failing: set<string>, before: map<string, Row>,
                             outbox: map<string, Row>, dead: set<string>, inbox: set<string>) {
    && Through(ids, done, failing, before, outbox, dead, inbox)
    && (forall k :: done <= k < |ids| ==> ids[k] in outbox && outbox[ids[k]] == before[ids[k]])
  }

  // Only the row of this message changed.
  ghost predicate OnlyRow(id: string, before: map<string, Row>, outbox: map<string, Row>) {
    forall other :: other != id ==>
      && (Pending(outbox, other) <==> Pending(before, other))
      && (other in before ==> other in outbox && outbox[other] == before[other])
  }

  lemma PassedOneMore(ids: seq<string>, done: nat, failing: set<string>, before: map<string, Row>,
                      outbox: map<string, Row>, dead: set<string>, inbox: set<string>,
                      outbox': map<string, Row>, dead': set<string>, inbox': set<string>)
    requires PassedOver(ids, done, failing, before, outbox, dead, inbox) && done < |ids|
    requires forall j, k :: 0 <= j < k < |ids| ==> ids[j] != ids[k]
    requires OnlyRow(ids[done], outbox, outbox') && dead <= dead' && inbox <= inbox'
    requires !Pending(outbox', ids[done])
    requires if ids[done] in failing then ids[done] in dead' else before[ids[done]].key in inbox'
    ensures PassedOver(ids, done + 1, failing, before, outbox', dead', inbox')
  {
    forall k | 0 <= k < |ids| && k != done ensures ids[k] != ids[done] {}
  }

  // The totals after the first done messages, grown of them newly applied.
  predicate Tallied(result: DeliveryResult, ids: seq<string>, done: nat, failing: set<string>, grown: int)
    requires done <= |ids|
  {
    && result.delivered == grown && result.deadLettered == CountIn(ids[..done], failing)
    && result.delivered + result.duplicates + result.deadLettered == done
  }

  // The pass stopped at message done: it is locked, held back, or it failed.
  predicate StoppedAt(result: DeliveryResult, ids: seq<string>, done: nat, ready: set<string>, failing: set<string>,
                      locked: set<string>)
    requires done <= |ids|
  {
    && (result.busy <==> done < |ids| && ids[done] in ready && ids[done] in locked)
    && result.failedMessageId == (if done < |ids| && !result.busy then Some(ids[done]) else None)
    && (result.failedMessageId.Some? ==> ids[done] !in ready || ids[done] in failing)
  }

  // The run so far has messages k and on still to take.
  ghost predicate InBatch(w0: World, steps: seq<Step>, d: int, ids: seq<string>, k: nat)
    requires k <= |ids|
  {
    PhaseOf(Execute(w0, steps), d) == Listed(ids[k..]) && OthersHold(w0.phases, Execute(w0, steps).phases, d)
  }

  // The tables are the same and d is idle.
  ghost predicate Ended(v: World, w: World, d: int) {
    v.outbox == w.outbox && v.dead == w.dead && v.inbox == w.inbox && v.log == w.log && PhaseOf(w, d).Idle?
  }

  lemma OpenBatch(w0: World, d: int, ids: seq<string>, failing: set<string>)
    requires IsListing(w0.outbox, ids) && PhaseOf(w0, d).Idle?
    ensures var w := Execute(w0, [List(d, ids)]);
            w.outbox == w0.outbox && w.dead == w0.dead && w.inbox == w0.inbox && w.log == w0.log
    ensures InBatch(w0, [List(d, ids)], d, ids, 0)
    ensures forall j, k :: 0 <= j < k < |ids| ==> ids[j] != ids[k]
    ensures PassedOver(ids, 0, failing, w0.outbox, w0.outbox, w0.dead.Keys, w0.inbox)
  {
    ExecuteOne(w0, List(d, ids));
    assert ids[0..] == ids;
    OthersStillHold(w0.phases, w0.phases, d, Listed(ids));
    assert forall j, k :: 0 <= j < k < |ids| ==> Before(w0.outbox[ids[j]], w0.outbox[ids[k]]);
  }

  // The lock attempt on a row another deliverer holds ends the batch.
  lemma BusyBatch(w0: World, steps: seq<Step>, d: int, ids: seq<string>, k: nat)
    requires k < |ids| && InBatch(w0, steps, d, ids, k) && LockedByOther(w0, d, ids[k])
    ensures Ended(Execute(w0, steps), Execute(w0, steps + [Take(d)]), d)
  {
    var v := Execute(w0, steps);
    var o :| o != d && Holds(w0.phases, o, ids[k]);
    assert Holds(v.phases, o, ids[k]);
    ExecuteAppend(w0, steps, [Take(d)]);
    ExecuteOne(v, Take(d));
  }

  lemma CloseBatch(w: World, steps: seq<Step>, d: int)
    ensures Ended(Execute(w, steps), Execute(w, steps + [Stop(d)]), d)
  {
    ExecuteAppend(w, steps, [Stop(d)]);
    ExecuteOne(Execute(w, steps), Stop(d));
  }

  // The tables of one direction.
  class SyncTables {
    var outbox: map<string, Row>
    var dead: map<string, DeadRow>
    var inbox: set<string>
    var log: seq<Entry>

    ghost predicate Shows(w: World)
      reads this
    {
      outbox == w.outbox && dead == w.dead && inbox == w.inbox && log == w.log
    }

    // One attempt at a message this deliverer may lock: apply and commit, or roll back and
    // record the failure. Returns whether the batch goes on.
    method Attempt(id: string, fails: bool, now: int, window: int, ghost w: World, ghost d: int)
      returns (applied: bool, goesOn: bool, ghost steps: seq<Step>)
      requires Shows(w) && Pending(outbox, id)
      requires PhaseOf(w, d).Listed? && PhaseOf(w, d).ids != [] && PhaseOf(w, d).ids[0] == id
      requires !LockedByOther(w, d, id)
      modifies this
      ensures steps == if fails then [Take(d), Rollback(d), RecordFailure(d, now, window)] else [Take(d), Commit(d)]
      ensures Shows(Execute(w, steps))
      ensures goesOn <==> !fails || GivesUp(old(outbox)[id], now, window)
      ensures fails ==>
                var since := old(outbox)[id].firstFailedAt;
                (goesOn <==> window <= if since.Some? then now - since.value else 0)
      ensures applied <==> !fails && old(outbox)[id].key !in old(inbox)
      ensures |log| == |old(log)| + if applied then 1 else 0
      ensures if fails then goesOn ==> id in dead else old(outbox)[id].key in inbox
      ensures old(inbox) <= inbox && old(dead).Keys <= dead.Keys
      ensures forall other :: other != id && other in old(outbox) ==>
                other in outbox && outbox[other] == old(outbox)[other]
      ensures Pending(outbox, id) <==> !goesOn
      ensures forall other :: other != id ==> (Pending(outbox, other) <==> Pending(old(outbox), other))
      ensures Execute(w, steps).phases == w.phases[d := if goesOn then Listed(PhaseOf(w, d).ids[1..]) else Idle]
    {
      var message := outbox[id];
      var duplicate := message.key in inbox;
      applied, goesOn := false, true;
      if fails {
        steps := [Take(d), Rollback(d), RecordFailure(d, now, window)];
        FailedAttempt(w, d, id, now, window);
        goesOn := GivesUp(message, now, window);
        message := Failed(message, now);
        if goesOn {
          dead := dead[id := Buried(message)];
          outbox := outbox - {id};
        } else {
          outbox := outbox[id := message];
        }
      } else {
        steps := [Take(d), Commit(d)];
        CommittedAttempt(w, d, id);
        if !duplicate {
          log := log + [Entry(message.key, message.body, Effective(message))];
          inbox := inbox + {message.key};
          applied := true;
        }
        outbox := outbox[id := message.(delivered := true)];
      }
    }

    // Put a dead letter back with a fresh row sequence, keeping its key, timestamp and number.
    method RetryDeadLetter(id: string, number: int, ghost w: World) returns (outcome: RetryOutcome)
      requires Shows(w) && number == w.lastNumber + 1
      modifies this
      ensures Shows(Next(w, Retry(id)))
      ensures outcome.NotFound? <==> id !in old(dead)
      ensures outcome.MissingOriginalSequence? <==> id in old(dead) && old(dead)[id].number <= 0
      ensures outcome.Queued? ==> id in outbox && Effective(outbox[id]) == old(dead)[id].number && Pending(outbox, id)
      ensures !outcome.Queued? ==> outbox == old(outbox) && dead == old(dead)
    {
      if id !in dead {
        return NotFound;
      }
      if dead[id].number <= 0 {
        return MissingOriginalSequence;
      }
      outbox := outbox[id := Revived(dead[id], number)];
      dead := dead - {id};
      outcome := Queued;
    }

    // Message k of the batch, as the continuation of the run so far.
    method Advance(ids: seq<string>, k: nat, fails: bool, now: int, window: int,
                   ghost w0: World, ghost d: int, ghost steps: seq<Step>)
      returns (applied: bool, goesOn: bool, ghost steps': seq<Step>)
      requires Shows(Execute(w0, steps)) && k < |ids| && Pending(outbox, ids[k])
      requires InBatch(w0, steps, d, ids, k) && !LockedByOther(w0, d, ids[k])
      modifies this
      ensures Shows(Execute(w0, steps'))
      ensures if goesOn then InBatch(w0, steps', d, ids, k + 1) else PhaseOf(Execute(w0, steps'), d).Idle?
      ensures !goesOn ==> fails
      ensures applied ==> !fails
      ensures |log| == |old(log)| + if applied then 1 else 0
      ensures if fails then goesOn ==> ids[k] in dead else old(outbox)[ids[k]].key in inbox
      ensures old(inbox) <= inbox && old(dead).Keys <= dead.Keys
      ensures OnlyRow(ids[k], old(outbox), outbox) && (Pending(outbox, ids[k]) <==> !goesOn)
    {
      ghost var w, more := Execute(w0, steps), [];
      assert ids[k..][1..] == ids[k + 1..];
      applied, goesOn, more := Attempt(ids[k], fails, now, window, w, d);
      ExecuteAppend(w0, steps, more);
      OthersStillHold(w0.phases, w.phases, d, if goesOn then Listed(ids[k + 1..]) else Idle);
      steps' := steps + more;
    }

    // Message k of the batch that nobody else holds and that is not held back.
    method DeliverReady(ids: seq<string>, k: nat, failing: set<string>, now: int, window: int, sofar: DeliveryResult,
                        ghost w0: World, ghost d: int, ghost steps: seq<Step>, ghost before: map<string, Row>,
                        ghost grown: int)
      returns (result: DeliveryResult, stops: bool, ghost steps': seq<Step>)
      requires Shows(Execute(w0, steps)) && k < |ids| && InBatch(w0, steps, d, ids, k) && !LockedByOther(w0, d, ids[k])
      requires forall i, j :: 0 <= i < j < |ids| ==> ids[i] != ids[j]
      requires PassedOver(ids, k, failing, before, outbox, dead.Keys, inbox) && Tallied(sofar, ids, k, failing, grown)
      modifies this
      ensures Shows(Execute(w0, steps'))
      ensures stops ==>
                ids[k] in failing && result == sofar && |log| == |old(log)| && PhaseOf(Execute(w0, steps'), d).Idle?
                        && Through(ids, k, failing, before, outbox, dead.Keys, inbox)
      ensures !stops ==> InBatch(w0, steps', d, ids, k + 1)
                         && PassedOver(ids, k + 1, failing, before, outbox, dead.Keys, inbox)
                         && Tallied(result, ids, k + 1, failing, grown + |log| - |old(log)|)
      ensures result.busy == sofar.busy && result.failedMessageId == sofar.failedMessageId
    {
      var applied, goesOn;
      applied, goesOn, steps' := Advance(ids, k, ids[k] in failing, now, window, w0, d, steps);
      result, stops := sofar, !goesOn;
      if stops { return; }
      PassedOneMore(ids, k, failing, before, old(outbox), old(dead).Keys, old(inbox), outbox, dead.Keys, inbox);
      assert ids[..k + 1][..k] == ids[..k];
      if ids[k] in failing {
        result := result.(deadLettered := result.deadLettered + 1);
      } else if applied {
        result := result.(delivered := result.delivered + 1);
      } else {
        result := result.(duplicates := result.duplicates + 1);
      }
    }

    // Message k is in backoff, or somebody else holds it: the pass ends before it.
    method HoldBack(ids: seq<string>, k: nat, isReady: bool, sofar: DeliveryResult, ghost w0: World, ghost d: int,
                    ghost steps: seq<Step>)
      returns (result: DeliveryResult, ghost steps': seq<Step>)
      requires Shows(Execute(w0, steps)) && k < |ids| && InBatch(w0, steps, d, ids, k)
      requires isReady ==> LockedByOther(w0, d, ids[k])
      ensures Shows(Execute(w0, steps')) && PhaseOf(Execute(w0, steps'), d).Idle?
      ensures result == if isReady then sofar.(busy := true) else sofar.(failedMessageId := Some(ids[k]))
    {
      if isReady {
        BusyBatch(w0, steps, d, ids, k);
        return sofar.(busy := true), steps + [Take(d)];
      }
      CloseBatch(w0, steps, d);
      result, steps' := sofar.(failedMessageId := Some(ids[k])), steps + [Stop(d)];
    }

    // One round of the pass: message k is held back, or delivered.
    method DeliverNext(ids: seq<string>, k: nat, ready: set<string>, failing: set<string>, locked: set<string>,
                       now: int, window: int, sofar: DeliveryResult, ghost w0: World, ghost d: int,
                       ghost steps: seq<Step>, ghost before: map<string, Row>, ghost grown: int)
      returns (result: DeliveryResult, stops: bool, ghost steps': seq<Step>)
      requires Shows(Execute(w0, steps)) && k < |ids| && InBatch(w0, steps, d, ids, k)
      requires ids[k] in locked <==> LockedByOther(w0, d, ids[k])
      requires forall i, j :: 0 <= i < j < |ids| ==> ids[i] != ids[j]
      requires PassedOver(ids, k, failing, before, outbox, dead.Keys, inbox) && Tallied(sofar, ids, k, failing, grown)
      requires !sofar.busy && sofar.failedMessageId.None?
      modifies this
      ensures Shows(Execute(w0, steps'))
      ensures stops ==> PhaseOf(Execute(w0, steps'), d).Idle? && StoppedAt(result, ids, k, ready, failing, locked)
                        && Through(ids, k, failing, before, outbox, dead.Keys, inbox)
                        && Tallied(result, ids, k, failing, grown + |log| - |old(log)|)
      ensures !stops ==> InBatch(w0, steps', d, ids, k + 1)
                         && PassedOver(ids, k + 1, failing, before, outbox, dead.Keys, inbox)
                         && Tallied(result, ids, k + 1, failing, grown + |log| - |old(log)|)
                         && !result.busy && result.failedMessageId.None?
    {
      if ids[k] !in ready || ids[k] in locked {
        result, steps' := HoldBack(ids, k, ids[k] in ready, sofar, w0, d, steps);
        return result, true, steps';
      }
      result, stops, steps' := DeliverReady(ids, k, failing, now, window, sofar, w0, d, steps, before, grown);
      if stops { result := result.(failedMessageId := Some(ids[k])); }
    }

    // The pass over the listed ids. What it does is a run of the protocol above. ready: ids not in
    // backoff; failing: ids whose handler or commit raises; locked: ids another deliverer holds. It
    // goes through the first done messages, each applied before or now, or dead-lettered, and stops
    // at the first one that is not ready, is locked, or fails without giving up.
    method DeliverPending(ids: seq<string>, ready: set<string>, failing: set<string>, locked: set<string>,
                          now: int, window: int, ghost w0: World, ghost d: int)
      returns (result: DeliveryResult, done: nat, ghost steps: seq<Step>)
      requires Shows(w0) && IsListing(outbox, ids) && PhaseOf(w0, d).Idle?
      requires forall k :: 0 <= k < |ids| ==> (ids[k] in locked <==> LockedByOther(w0, d, ids[k]))
      modifies this
      ensures Shows(Execute(w0, steps)) && PhaseOf(Execute(w0, steps), d).Idle?
      ensures done <= |ids| && Through(ids, done, failing, old(outbox), outbox, dead.Keys, inbox)
      ensures Tallied(result, ids, done, failing, |log| - |old(log)|)
      ensures StoppedAt(result, ids, done, ready, failing, locked)
    {
      ghost var before, n := outbox, |log|;
      result, done := DeliveryResult(0, 0, 0, None, false), 0;
      steps := [List(d, ids)];
      OpenBatch(w0, d, ids, failing);
      while done < |ids|
        invariant 0 <= done <= |ids|
        invariant Shows(Execute(w0, steps)) && InBatch(w0, steps, d, ids, done)
        invariant PassedOver(ids, done, failing, before, outbox, dead.Keys, inbox)
        invariant Tallied(result, ids, done, failing, |log| - n)
        invariant !result.busy && result.failedMessageId.None?
      {
        var stops;
        result, stops, steps := DeliverNext(ids, done, ready, failing, locked, now, window, result, w0, d, steps,
                                            before, |log| - n);
        if stops { return; }
        done := done + 1;
      }
      CloseBatch(w0, steps, d);
      steps := steps + [Stop(d)];
    }
  }

  lemma ExecuteOne(w: World, a: Step)
    ensures Execute(w, [a]) == Next(w, a)
  {
    assert [a][1..] == [];
  }

  lemma ExecuteTwo(w: World, a: Step, b: Step)
    ensures Execute(w, [a, b]) == Next(Next(w, a), b)
  {
    assert [a, b][1..] == [b];
    ExecuteOne(Next(w, a), b);
  }

  lemma ExecuteThree(w: World, a: Step, b: Step, c: Step)
    ensures Execute(w, [a, b, c]) == Next(Next(Next(w, a), b), c)
  {
    assert [a, b, c][1..] == [b, c];
    ExecuteTwo(Next(w, a), b, c);
  }
}
