// The order in which messages about one entity are applied (backend/app/sync/worker.py), and what
// a handler without a sequence guard keeps of it.
module EntityOrder {
  import opened Prelude
  import opened Delivery
  import opened Renumbering

  predicate About(b: Body, kind: string, entity: string) { b.kind == kind && b.entity == entity }

  // The messages about the entity that are in the outbox and not applied yet.
  function Open(outbox: map<string, Row>, inbox: set<string>, kind: string, entity: string): set<string> {
    set id | id in outbox && outbox[id].key !in inbox && About(outbox[id].body, kind, entity)
  }

  function OpenOf(w: World, kind: string, entity: string): set<string> { Open(w.outbox, w.inbox, kind, entity) }

  // The step dead-letters a message about the entity that is not applied yet.
  ghost predicate BuriesOpen(w: World, step: Step, kind: string, entity: string) {
    exists id :: Buries(w, step, id) && id in OpenOf(w, kind, entity)
  }

  ghost predicate Unburied(w: World, steps: seq<Step>, kind: string, entity: string)
    decreases |steps|
  {
    steps == [] || (!BuriesOpen(w, steps[0], kind, entity) && Unburied(Next(w, steps[0]), steps[1..], kind, entity))
  }

  // --- The invariant ----------------------------------------------------------------

  // Messages were sent in order of sequence and time.
  ghost predicate SentAscending(first: map<string, Row>, last: int, created: int) {
    && 0 <= last
    && (forall a :: a in first ==> 0 < first[a].number <= last && first[a].createdAt <= created)
    && (forall a, b :: a in first && b in first && first[a].number < first[b].number ==>
          first[a].createdAt <= first[b].createdAt)
    && (forall a, b :: a in first && b in first && first[a].number == first[b].number ==> a == b)
  }

  // Open messages are in the outbox as they were sent.
  ghost predicate AsSent(outbox: map<string, Row>, open: set<string>, first: map<string, Row>) {
    forall id :: id in open ==>
      && id in outbox && id in first && !outbox[id].delivered && outbox[id].replayNumber.None?
      && outbox[id].number == first[id].number && outbox[id].createdAt == first[id].createdAt
  }

  ghost predicate DeadApplied(dead: map<string, DeadRow>, inbox: set<string>, kind: string, entity: string) {
    forall id :: id in dead && About(dead[id].body, kind, entity) ==> dead[id].key in inbox
  }

  // The earlier open messages come before this one in the batch.
  predicate Earlier(ids: seq<string>, p: nat, open: set<string>, first: map<string, Row>)
    requires p < |ids|
  {
    ids[p] in first && forall x :: x in open && x in first && first[x].number < first[ids[p]].number ==> x in ids[..p]
  }

  ghost predicate Queued(ids: seq<string>, open: set<string>, first: map<string, Row>) {
    && (forall p :: 0 <= p < |ids| ==> ids[p] in first)
    && (forall p :: 0 <= p < |ids| && ids[p] in open ==> Earlier(ids, p, open, first))
  }

  ghost predicate AllQueued(phases: map<int, Phase>, open: set<string>, first: map<string, Row>) {
    forall d :: d in phases ==> Queued(IdsOf(phases[d]), open, first)
  }

  // The applied messages about the entity ascend.
  ghost predicate Ascends(log: seq<Entry>, kind: string, entity: string) {
    forall i, j :: 0 <= i < j < |log| && About(log[i].body, kind, entity) && About(log[j].body, kind, entity) ==>
      log[i].number < log[j].number
  }

  // And they come before the open ones.
  ghost predicate Behind(log: seq<Entry>, open: set<string>, first: map<string, Row>, kind: string, entity: string) {
    forall i, x :: 0 <= i < |log| && About(log[i].body, kind, entity) && x in open && x in first ==>
      log[i].number < first[x].number
  }

  ghost predicate InTurn(w: World, kind: string, entity: string) {
    var open := OpenOf(w, kind, entity);
    && SentAscending(w.first, w.lastNumber, w.lastCreated) && AsSent(w.outbox, open, w.first)
    && DeadApplied(w.dead, w.inbox, kind, entity) && AllQueued(w.phases, open, w.first)
    && Ascends(w.log, kind, entity) && Behind(w.log, open, w.first, kind, entity)
  }

  // --- Batches ------------------------------------------------------------------------

  lemma QueuedShrinks(ids: seq<string>, open: set<string>, open': set<string>, first: map<string, Row>)
    requires Queued(ids, open, first) && open' <= open
    ensures Queued(ids, open', first)
  {
    forall p | 0 <= p < |ids| && ids[p] in open' ensures Earlier(ids, p, open', first) {
      assert Earlier(ids, p, open, first);
    }
  }

  lemma QueuedTail(ids: seq<string>, open: set<string>, first: map<string, Row>)
    requires Queued(ids, open, first) && ids != [] && ids[0] !in open
    ensures Queued(ids[1..], open, first)
  {
    var tail := ids[1..];
    forall p | 0 <= p < |tail| && tail[p] in open ensures Earlier(tail, p, open, first) {
      assert Earlier(ids, p + 1, open, first);
      forall x | x in open && x in first && first[x].number < first[tail[p]].number ensures x in tail[..p] {
        assert x in ids[..p + 1];
        var q :| 0 <= q < p + 1 && ids[q] == x;
        assert tail[q - 1] == x;
      }
    }
  }

  lemma QueuedGrows(ids: seq<string>, open: set<string>, first: map<string, Row>, id: string, r: Row)
    requires Queued(ids, open, first) && id !in first && forall a :: a in first ==> first[a].number < r.number
    ensures Queued(ids, open, first[id := r]) && Queued(ids, open + {id}, first[id := r])
  {
    var first' := first[id := r];
    forall p | 0 <= p < |ids| && ids[p] in open + {id}
      ensures Earlier(ids, p, open, first') && Earlier(ids, p, open + {id}, first')
    {
      assert ids[p] in first && Earlier(ids, p, open, first);
    }
  }

  // The query lists open messages after every earlier one.
  lemma ListingQueued(w: World, batch: seq<string>, kind: string, entity: string)
    requires Safe(w) && InTurn(w, kind, entity) && IsListing(w.outbox, batch)
    ensures Queued(batch, OpenOf(w, kind, entity), w.first)
  {
    var open := OpenOf(w, kind, entity);
    forall p | 0 <= p < |batch| ensures batch[p] in w.first {
      assert Known(w.first, batch[p], w.outbox[batch[p]].key, w.outbox[batch[p]].body);
    }
    forall p | 0 <= p < |batch| && batch[p] in open ensures Earlier(batch, p, open, w.first) {
      forall x | x in open && x in w.first && w.first[x].number < w.first[batch[p]].number ensures x in batch[..p] {
        assert Pending(w.outbox, x) && Before(w.outbox[x], w.outbox[batch[p]]);
        EarlierIsListed(w.outbox, batch, p, x);
      }
    }
  }

  lemma EarlierIsListed(outbox: map<string, Row>, batch: seq<string>, p: nat, x: string)
    requires IsListing(outbox, batch) && p < |batch| && Pending(outbox, x) && Before(outbox[x], outbox[batch[p]])
    ensures x in batch[..p]
  {
    assert !Before(outbox[batch[p]], outbox[x]);
    assert x in batch;
    var q :| 0 <= q < |batch| && batch[q] == x;
    assert q < p;
    assert batch[..p][q] == x;
  }

  // --- Each step ----------------------------------------------------------------------

  lemma MoveInTurn(w: World, d: int, p: Phase, kind: string, entity: string)
    requires InTurn(w, kind, entity) && Queued(IdsOf(p), OpenOf(w, kind, entity), w.first)
    ensures InTurn(Move(w, d, p), kind, entity)
  {
    assert OpenOf(Move(w, d, p), kind, entity) == OpenOf(w, kind, entity);
  }

  // The head of a batch that Take leaves behind is delivered, so not open.
  lemma TakeMoves(w: World, d: int)
    requires PhaseOf(w, d).Listed? && PhaseOf(w, d).ids != []
    ensures var p, v := PhaseOf(w, d), Next(w, Take(d));
            && d in v.phases && v == Move(w, d, v.phases[d])
            && (IdsOf(v.phases[d]) == [] || IdsOf(v.phases[d]) == p.ids
                || (IdsOf(v.phases[d]) == p.ids[1..] && p.ids[0] in w.outbox && w.outbox[p.ids[0]].delivered))
  {
  }

  lemma TakeInTurn(w: World, d: int, kind: string, entity: string)
    requires InTurn(w, kind, entity)
    ensures InTurn(Next(w, Take(d)), kind, entity)
  {
    var p := PhaseOf(w, d);
    if p.Listed? && p.ids != [] {
      var open := OpenOf(w, kind, entity);
      TakeMoves(w, d);
      assert Queued(IdsOf(w.phases[d]), open, w.first);
      if p.ids[0] !in open { QueuedTail(p.ids, open, w.first); }
      MoveInTurn(w, d, Next(w, Take(d)).phases[d], kind, entity);
    }
  }

  lemma PhaseInTurn(w: World, step: Step, kind: string, entity: string)
    requires Safe(w) && InTurn(w, kind, entity) && (step.List? || step.Stop? || step.Take? || step.Rollback?)
    ensures InTurn(Next(w, step), kind, entity)
  {
    match step
    case List(d, batch) =>
      if PhaseOf(w, d).Idle? && IsListing(w.outbox, batch) {
        ListingQueued(w, batch, kind, entity);
        MoveInTurn(w, d, Listed(batch), kind, entity);
      }
    case Stop(d) => MoveInTurn(w, d, Idle, kind, entity);
    case Take(d) => TakeInTurn(w, d, kind, entity);
    case Rollback(d) =>
      if PhaseOf(w, d).Applying? {
        assert Queued(IdsOf(w.phases[d]), OpenOf(w, kind, entity), w.first);
        MoveInTurn(w, d, Failing(PhaseOf(w, d).ids), kind, entity);
      }
  }

  // The batches after the head of d's batch is no longer open.
  lemma HeadIsDone(phases: map<int, Phase>, d: int, open: set<string>, open': set<string>, first: map<string, Row>,
                   p: Phase)
    requires AllQueued(phases, open, first) && d in phases && IdsOf(phases[d]) != []
    requires open' <= open && IdsOf(phases[d])[0] !in open'
    requires IdsOf(p) == IdsOf(phases[d])[1..] || IdsOf(p) == []
    ensures AllQueued(phases[d := p], open', first)
  {
    var after := phases[d := p];
    forall e | e in after ensures Queued(IdsOf(after[e]), open', first) {
      QueuedShrinks(IdsOf(phases[e]), open, open', first);
      if e == d && IdsOf(p) != [] { QueuedTail(IdsOf(phases[d]), open', first); }
    }
  }

  lemma OpenAfterCommit(w: World, id: string, kind: string, entity: string)
    requires Safe(w) && id in w.outbox
    ensures var r := w.outbox[id];
            Open(w.outbox[id := r.(delivered := true)], w.inbox + {r.key}, kind, entity)
            == OpenOf(w, kind, entity) - {id}
  {
    forall other | other in w.outbox && other != id ensures w.outbox[other].key != w.outbox[id].key {
      KeysDiffer(w, other, id);
    }
  }

  // The applied message comes after those applied and before those still open.
  lemma LogInTurn(log: seq<Entry>, open: set<string>, first: map<string, Row>, id: string, e: Entry,
                  kind: string, entity: string)
    requires Ascends(log, kind, entity) && Behind(log, open, first, kind, entity)
    requires About(e.body, kind, entity) ==> id in open && id in first && e.number == first[id].number
                                             && forall x :: x in open && x in first && x != id ==>
                                                  e.number < first[x].number
    ensures Ascends(log + [e], kind, entity) && Behind(log + [e], open - {id}, first, kind, entity)
  {
  }

  // A lock holder's message, if open, is the earliest open one.
  lemma HeadIsEarliest(w: World, d: int, kind: string, entity: string)
    requires InTurn(w, kind, entity) && PhaseOf(w, d).Applying? && PhaseOf(w, d).ids != []
    requires PhaseOf(w, d).ids[0] in OpenOf(w, kind, entity)
    ensures var id := PhaseOf(w, d).ids[0];
            id in w.first && forall x :: x in OpenOf(w, kind, entity) && x in w.first && x != id ==>
                               w.first[id].number < w.first[x].number
  {
    var ids, open := PhaseOf(w, d).ids, OpenOf(w, kind, entity);
    assert Queued(IdsOf(w.phases[d]), open, w.first);
    assert Earlier(ids, 0, open, w.first) && ids[..0] == [];
  }

  lemma CommitInTurn(w: World, d: int, kind: string, entity: string)
    requires Safe(w) && InTurn(w, kind, entity)
    ensures InTurn(Next(w, Commit(d)), kind, entity)
  {
    var p := PhaseOf(w, d);
    if p.Applying? && p.ids != [] && p.ids[0] in w.outbox {
      var id, open := p.ids[0], OpenOf(w, kind, entity);
      var r := w.outbox[id];
      assert Holds(w.phases, d, id);
      OpenAfterCommit(w, id, kind, entity);
      HeadIsDone(w.phases, d, open, open - {id}, w.first, Listed(p.ids[1..]));
      if p.duplicate { DuplicateInTurn(w, d, kind, entity); } else { AppliedInTurn(w, d, kind, entity); }
    }
  }

  lemma DuplicateInTurn(w: World, d: int, kind: string, entity: string)
    requires Safe(w) && InTurn(w, kind, entity)
    requires var p := PhaseOf(w, d); p.Applying? && p.ids != [] && p.ids[0] in w.outbox && p.duplicate
    requires var p := PhaseOf(w, d);
             AllQueued(w.phases[d := Listed(p.ids[1..])], OpenOf(w, kind, entity) - {p.ids[0]}, w.first)
    ensures InTurn(Next(w, Commit(d)), kind, entity)
  {
    var id, v, open := PhaseOf(w, d).ids[0], Next(w, Commit(d)), OpenOf(w, kind, entity);
    CommitWrites(w, d);
    assert Holds(w.phases, d, id) && w.outbox[id].key in w.inbox;
    assert id !in open && open - {id} == open;
    OpenAfterWrite(w.outbox, w.inbox, id, v.outbox[id], kind, entity);
    TablesInTurn(w, v, kind, entity);
  }

  // The parts of the invariant after a message left the open ones.
  lemma InTurnAfter(v: World, open: set<string>, kind: string, entity: string)
    requires OpenOf(v, kind, entity) == open && SentAscending(v.first, v.lastNumber, v.lastCreated)
    requires AsSent(v.outbox, open, v.first) && DeadApplied(v.dead, v.inbox, kind, entity)
    requires AllQueued(v.phases, open, v.first) && Ascends(v.log, kind, entity)
             && Behind(v.log, open, v.first, kind, entity)
    ensures InTurn(v, kind, entity)
  {
  }

  lemma AppliedInTurn(w: World, d: int, kind: string, entity: string)
    requires Safe(w) && InTurn(w, kind, entity)
    requires var p := PhaseOf(w, d); p.Applying? && p.ids != [] && p.ids[0] in w.outbox && !p.duplicate
    requires var p := PhaseOf(w, d);
             AllQueued(w.phases[d := Listed(p.ids[1..])], OpenOf(w, kind, entity) - {p.ids[0]}, w.first)
    ensures InTurn(Next(w, Commit(d)), kind, entity)
  {
    var id, open := PhaseOf(w, d).ids[0], OpenOf(w, kind, entity);
    var r := w.outbox[id];
    CommitWrites(w, d);
    OpenAfterCommit(w, id, kind, entity);
    AppliedLog(w, d, kind, entity);
    StillAsSent(w.outbox, open, w.first, id, r.(delivered := true));
    InTurnAfter(Next(w, Commit(d)), open - {id}, kind, entity);
  }

  lemma StillAsSent(outbox: map<string, Row>, open: set<string>, first: map<string, Row>, id: string, r: Row)
    requires AsSent(outbox, open, first)
    ensures AsSent(outbox[id := r], open - {id}, first)
  {
  }

  lemma AppliedLog(w: World, d: int, kind: string, entity: string)
    requires Safe(w) && InTurn(w, kind, entity)
    requires var p := PhaseOf(w, d); p.Applying? && p.ids != [] && p.ids[0] in w.outbox && !p.duplicate
    ensures var id, open := PhaseOf(w, d).ids[0], OpenOf(w, kind, entity);
            var r := w.outbox[id];
            var log := w.log + [Entry(r.key, r.body, Effective(r))];
            Ascends(log, kind, entity) && Behind(log, open - {id}, w.first, kind, entity)
  {
    var id, open := PhaseOf(w, d).ids[0], OpenOf(w, kind, entity);
    var r := w.outbox[id];
    assert Holds(w.phases, d, id) && r.key !in w.inbox;
    if id in open { HeadIsEarliest(w, d, kind, entity); }
    LogInTurn(w.log, open, w.first, id, Entry(r.key, r.body, Effective(r)), kind, entity);
  }

  // Rows that come, go or are rewritten without being open.
  lemma OpenAfterWrite(outbox: map<string, Row>, inbox: set<string>, id: string, r: Row, kind: string, entity: string)
    requires if id in outbox then r.key == outbox[id].key && r.body == outbox[id].body
             else About(r.body, kind, entity) ==> r.key in inbox
    ensures Open(outbox[id := r], inbox, kind, entity) == Open(outbox, inbox, kind, entity)
    ensures id !in Open(outbox, inbox, kind, entity) ==>
              Open(outbox - {id}, inbox, kind, entity) == Open(outbox, inbox, kind, entity)
  {
  }

  // Tables, batches and queues change, the open messages and the log do not.
  lemma TablesInTurn(w: World, v: World, kind: string, entity: string)
    requires InTurn(w, kind, entity) && v.first == w.first && v.log == w.log && v.lastCreated == w.lastCreated
    requires v.lastNumber >= w.lastNumber && OpenOf(v, kind, entity) == OpenOf(w, kind, entity)
    requires AsSent(v.outbox, OpenOf(w, kind, entity), w.first) && DeadApplied(v.dead, v.inbox, kind, entity)
    requires AllQueued(v.phases, OpenOf(w, kind, entity), w.first)
    ensures InTurn(v, kind, entity)
  {
  }

  lemma BurialInTurn(w: World, step: Step, kind: string, entity: string)
    requires Safe(w) && InTurn(w, kind, entity) && step.RecordFailure? && Next(w, step) != w
    requires var id := PhaseOf(w, step.d).ids[0]; Buries(w, step, id) && id !in OpenOf(w, kind, entity)
    ensures InTurn(Next(w, step), kind, entity)
  {
    var v, p := Next(w, step), PhaseOf(w, step.d);
    var id, open := p.ids[0], OpenOf(w, kind, entity);
    var r := Failed(w.outbox[id], step.now);
    FailureWrites(w, step);
    OpenAfterWrite(w.outbox, w.inbox, id, r, kind, entity);
    HeadIsDone(w.phases, step.d, open, open, w.first, Listed(p.ids[1..]));
    assert v.phases == w.phases[step.d := Listed(p.ids[1..])];
    TablesInTurn(w, v, kind, entity);
  }

  lemma FailureInTurn(w: World, step: Step, kind: string, entity: string)
    requires Safe(w) && InTurn(w, kind, entity) && step.RecordFailure? && !BuriesOpen(w, step, kind, entity)
    ensures InTurn(Next(w, step), kind, entity)
  {
    var v, p := Next(w, step), PhaseOf(w, step.d);
    if v != w {
      var id := p.ids[0];
      if id !in w.outbox {
        MoveInTurn(w, step.d, Idle, kind, entity);
      } else if Buries(w, step, id) {
        BurialInTurn(w, step, kind, entity);
      } else {
        RewriteInTurn(w, step, kind, entity);
      }
    }
  }

  lemma RewriteInTurn(w: World, step: Step, kind: string, entity: string)
    requires Safe(w) && InTurn(w, kind, entity) && step.RecordFailure? && Next(w, step) != w
    requires var id := PhaseOf(w, step.d).ids[0]; id in w.outbox && !Buries(w, step, id)
    ensures InTurn(Next(w, step), kind, entity)
  {
    var v, id, open := Next(w, step), PhaseOf(w, step.d).ids[0], OpenOf(w, kind, entity);
    FailureWrites(w, step);
    OpenAfterWrite(w.outbox, w.inbox, id, Failed(w.outbox[id], step.now), kind, entity);
    assert v.phases == w.phases[step.d := Idle];
    TablesInTurn(w, v, kind, entity);
  }

  lemma RetryInTurn(w: World, id: string, kind: string, entity: string)
    requires Safe(w) && InTurn(w, kind, entity)
    ensures InTurn(Next(w, Retry(id)), kind, entity)
  {
    var v := Next(w, Retry(id));
    if v != w {
      assert id !in w.outbox;
      var r := Revived(w.dead[id], w.lastNumber + 1);
      OpenAfterWrite(w.outbox, w.inbox, id, r, kind, entity);
      OpenAsBefore(w.outbox, w.outbox[id := r], OpenOf(w, kind, entity), w.first);
      assert v.outbox == w.outbox[id := r] && v.phases == w.phases && v.inbox == w.inbox && v.dead == w.dead - {id};
      TablesInTurn(w, v, kind, entity);
    }
  }

  lemma OpenAsBefore(outbox: map<string, Row>, after: map<string, Row>, open: set<string>, first: map<string, Row>)
    requires AsSent(outbox, open, first)
    requires forall id :: id in open ==> id in after && after[id] == outbox[id]
    ensures AsSent(after, open, first)
  {
  }

  lemma SentOneMore(first: map<string, Row>, last: int, created: int, id: string, r: Row)
    requires SentAscending(first, last, created) && id !in first && r.number == last + 1 && r.createdAt >= created
    ensures SentAscending(first[id := r], last + 1, r.createdAt)
  {
  }

  lemma OpenAfterEnqueue(w: World, id: string, r: Row, kind: string, entity: string)
    requires id !in w.outbox
    ensures Open(w.outbox[id := r], w.inbox, kind, entity)
         == OpenOf(w, kind, entity) + if About(r.body, kind, entity) && r.key !in w.inbox then {id} else {}
  {
  }

  lemma BatchesAfterEnqueue(w: World, id: string, r: Row, open: set<string>)
    requires AllQueued(w.phases, open, w.first) && id !in w.first
    requires forall a :: a in w.first ==> w.first[a].number < r.number
    ensures AllQueued(w.phases, open, w.first[id := r]) && AllQueued(w.phases, open + {id}, w.first[id := r])
  {
    forall d | d in w.phases
      ensures Queued(IdsOf(w.phases[d]), open, w.first[id := r])
              && Queued(IdsOf(w.phases[d]), open + {id}, w.first[id := r])
    {
      QueuedGrows(IdsOf(w.phases[d]), open, w.first, id, r);
    }
  }

  // Every applied sequence was given out before.
  lemma LoggedNumbersAreOld(w: World)
    requires OneKeyEach(w)
    ensures forall i :: 0 <= i < |w.log| ==> w.log[i].number <= w.lastNumber
  {
    forall i | 0 <= i < |w.log| ensures w.log[i].number <= w.lastNumber {
      assert Uses(w, w.log[i].number, w.log[i].key);
    }
  }

  lemma BehindOneMore(log: seq<Entry>, open: set<string>, first: map<string, Row>, last: int, id: string, r: Row,
                      kind: string, entity: string)
    requires Behind(log, open, first, kind, entity) && id !in first && r.number > last
    requires forall i :: 0 <= i < |log| ==> log[i].number <= last
    ensures Behind(log, open, first[id := r], kind, entity) && Behind(log, open + {id}, first[id := r], kind, entity)
  {
  }

  lemma EnqueueInTurn(w: World, step: Step, kind: string, entity: string)
    requires Safe(w) && OneKeyEach(w) && InTurn(w, kind, entity) && step.Enqueue?
    ensures InTurn(Next(w, step), kind, entity)
  {
    var v, open := Next(w, step), OpenOf(w, kind, entity);
    if v != w {
      var id := step.id;
      var r := v.outbox[id];
      assert id !in w.outbox;
      SentOneMore(w.first, w.lastNumber, w.lastCreated, id, r);
      OpenAfterEnqueue(w, id, r, kind, entity);
      BatchesAfterEnqueue(w, id, r, open);
      LoggedNumbersAreOld(w);
      BehindOneMore(w.log, open, w.first, w.lastNumber, id, r, kind, entity);
      assert open + {} == open;
      assert AsSent(v.outbox, OpenOf(v, kind, entity), v.first);
    }
  }

  // A step that dead-letters no open message about the entity keeps its messages in turn.
  lemma StepInTurn(w: World, step: Step, kind: string, entity: string)
    requires Safe(w) && OneKeyEach(w) && InTurn(w, kind, entity) && !BuriesOpen(w, step, kind, entity)
    ensures InTurn(Next(w, step), kind, entity)
  {
    match step
    case Enqueue(_, _, _, _) => EnqueueInTurn(w, step, kind, entity);
    case Retry(id) => RetryInTurn(w, id, kind, entity);
    case Commit(d) => CommitInTurn(w, d, kind, entity);
    case RecordFailure(_, _, _) => FailureInTurn(w, step, kind, entity);
    case _ => PhaseInTurn(w, step, kind, entity);
  }

  lemma {:induction false} RunInTurn(w: World, steps: seq<Step>, kind: string, entity: string)
    requires Safe(w) && OneKeyEach(w) && InTurn(w, kind, entity) && Unburied(w, steps, kind, entity)
    ensures var v := Execute(w, steps); Safe(v) && OneKeyEach(v) && InTurn(v, kind, entity)
    decreases |steps|
  {
    if steps != [] {
      StepIsSafe(w, steps[0]);
      StepKeepsOneKeyEach(w, steps[0]);
      StepInTurn(w, steps[0], kind, entity);
      RunInTurn(Next(w, steps[0]), steps[1..], kind, entity);
    }
  }

  // In every run that dead-letters no unapplied message about the entity, with any number of
  // deliverers and whatever happens to other messages, those about the entity are applied in the
  // order they were sent.
  lemma EntityAppliedInOrder(steps: seq<Step>, kind: string, entity: string)
    requires Unburied(EMPTY, steps, kind, entity)
    ensures Ascends(Execute(EMPTY, steps).log, kind, entity)
  {
    RunInTurn(EMPTY, steps, kind, entity);
  }

  // --- What a burial leads to -----------------------------------------------------------

  // The last applied message about the entity is older than one applied before it.
  ghost predicate Stale(log: seq<Entry>, kind: string, entity: string) {
    exists i, j :: 0 <= i < j < |log| && About(log[i].body, kind, entity) && IsLast(log, j, kind, entity)
                   && log[i].number > log[j].number
  }

  ghost predicate IsLast(log: seq<Entry>, j: nat, kind: string, entity: string) {
    && j < |log| && About(log[j].body, kind, entity)
    && forall k :: j < k < |log| ==> !About(log[k].body, kind, entity)
  }

  ghost predicate StaleBy(w: World, more: seq<Step>, kind: string, entity: string) {
    Unburied(w, more, kind, entity) && Stale(Execute(w, more).log, kind, entity)
  }

  lemma {:induction false} CalmBuriesNothing(w: World, steps: seq<Step>, kind: string, entity: string)
    requires forall i :: 0 <= i < |steps| ==> !steps[i].RecordFailure?
    ensures Unburied(w, steps, kind, entity)
    decreases |steps|
  {
    if steps != [] {
      assert !steps[0].RecordFailure?;
      CalmBuriesNothing(Next(w, steps[0]), steps[1..], kind, entity);
    }
  }

  // From any state, some run applies a pending message last.
  lemma CanApplyFrom(w: World, id: string) returns (steps: seq<Step>)
    requires Safe(w) && OneKeyEach(w) && Pending(w.outbox, id) && w.outbox[id].key !in w.inbox
    ensures Delivers(steps) && LoggedLast(Execute(w, steps).log, w.outbox[id])
  {
    var stops, idle := ComesToRest(w);
    var rest := CanApply(idle, id);
    ExecuteAppend(w, stops, rest);
    steps := stops + rest;
  }

  // A message of any content can be sent.
  lemma FreshMessage(w: World, body: Body) returns (enqueue: Step, id: string)
    ensures enqueue.Enqueue? && enqueue.id == id && enqueue.key !in w.inbox
    ensures var u := Next(w, enqueue);
            && id in u.outbox
            && u.outbox[id] == Row(enqueue.key, body, w.lastCreated, w.lastNumber + 1, None, false, 0, None)
            && u.inbox == w.inbox && u.dead == w.dead && u.lastNumber == w.lastNumber + 1
  {
    var keys := set a | a in w.first :: w.first[a].key;
    var key, _ := NewString(keys + w.inbox);
    var bound;
    id, bound := NewString(w.first.Keys);
    forall a | a in w.first ensures w.first[a].key != key { assert w.first[a].key in keys; }
    enqueue := Enqueue(id, key, body, w.lastCreated);
  }

  // It is applied before the dead letter comes back.
  lemma NewerIsApplied(w: World, body: Body) returns (steps: seq<Step>, e: Entry)
    requires Safe(w) && OneKeyEach(w)
    ensures forall i :: 0 <= i < |steps| ==> !steps[i].RecordFailure? && !steps[i].Retry?
    ensures EndsWith(Execute(w, steps).log, e) && e.body == body && e.number == w.lastNumber + 1
  {
    var enqueue, id := FreshMessage(w, body);
    var u := Next(w, enqueue);
    StepIsSafe(w, enqueue);
    StepKeepsOneKeyEach(w, enqueue);
    var rest := CanApplyFrom(u, id);
    steps, e := [enqueue] + rest, Entry(enqueue.key, body, w.lastNumber + 1);
    ExecuteCons(w, enqueue, rest);
  }

  // The inbox only takes up keys of outbox messages, so an unapplied dead letter stays unapplied.
  lemma InboxTakesOutboxKeys(w: World, step: Step)
    ensures Next(w, step).inbox <= w.inbox + (set id | id in w.outbox :: w.outbox[id].key)
  {
    var keys := set id | id in w.outbox :: w.outbox[id].key;
    match step
    case Commit(d) =>
      var p := PhaseOf(w, d);
      if p.Applying? && p.ids != [] && p.ids[0] in w.outbox { assert w.outbox[p.ids[0]].key in keys; }
    case RecordFailure(_, _, _) =>
    case Enqueue(_, _, _, _) =>
    case Retry(_) =>
    case _ => PhaseStepsKeepTables(w, step);
  }

  lemma StepLeavesDeadUnapplied(w: World, step: Step, id: string)
    requires Safe(w) && id in w.dead && w.dead[id].key !in w.inbox
    ensures w.dead[id].key !in Next(w, step).inbox
  {
    InboxTakesOutboxKeys(w, step);
    OutboxKeyIsNotDead(w, id);
  }

  lemma OutboxKeyIsNotDead(w: World, id: string)
    requires Safe(w) && id in w.dead
    ensures forall head :: head in w.outbox ==> w.outbox[head].key != w.dead[id].key
  {
    forall head | head in w.outbox ensures w.outbox[head].key != w.dead[id].key {
      assert Known(w.first, head, w.outbox[head].key, w.outbox[head].body);
      assert Known(w.first, id, w.dead[id].key, w.dead[id].body);
    }
  }

  lemma {:induction false} RunLeavesDeadUnapplied(w: World, steps: seq<Step>, id: string)
    requires Safe(w) && id in w.dead && w.dead[id].key !in w.inbox
    requires forall i :: 0 <= i < |steps| ==> !steps[i].RecordFailure? && !steps[i].Retry?
    ensures var v := Execute(w, steps); id in v.dead && v.dead[id] == w.dead[id] && w.dead[id].key !in v.inbox
    decreases |steps|
  {
    if steps != [] {
      assert !steps[0].RecordFailure? && !steps[0].Retry?;
      DeadStays(w, steps[0], id);
      StepLeavesDeadUnapplied(w, steps[0], id);
      StepIsSafe(w, steps[0]);
      RunLeavesDeadUnapplied(Next(w, steps[0]), steps[1..], id);
    }
  }

  lemma DeadStays(w: World, step: Step, id: string)
    requires id in w.dead && !step.RecordFailure? && !step.Retry?
    ensures id in Next(w, step).dead && Next(w, step).dead[id] == w.dead[id]
  {
    match step
    case Commit(_) =>
    case Enqueue(_, _, _, _) =>
    case _ => PhaseStepsKeepTables(w, step);
  }

  // An open message is buried with the sequence it was sent with.
  lemma OpenIsBuried(w: World, step: Step, id: string, kind: string, entity: string)
    requires Safe(w) && InTurn(w, kind, entity) && Buries(w, step, id) && id in OpenOf(w, kind, entity)
    ensures var v := Next(w, step);
            && id in v.dead && 0 < v.dead[id].number <= v.lastNumber && About(v.dead[id].body, kind, entity)
            && v.dead[id].key !in v.inbox
  {
    FailureWrites(w, step);
  }

  // The buried message comes back after a newer one.
  lemma BuriedComesBackLast(w: World, step: Step, kind: string, entity: string) returns (more: seq<Step>)
    requires Safe(w) && OneKeyEach(w) && InTurn(w, kind, entity) && BuriesOpen(w, step, kind, entity)
    ensures StaleBy(Next(w, step), more, kind, entity)
  {
    var id :| Buries(w, step, id) && id in OpenOf(w, kind, entity);
    OpenIsBuried(w, step, id, kind, entity);
    StepIsSafe(w, step);
    StepKeepsOneKeyEach(w, step);
    more := DeadComesBackLast(Next(w, step), id, kind, entity);
  }

  lemma DeadComesBackLast(w: World, id: string, kind: string, entity: string) returns (more: seq<Step>)
    requires Retriable(w, id) && w.dead[id].number <= w.lastNumber && About(w.dead[id].body, kind, entity)
    ensures StaleBy(w, more, kind, entity)
  {
    var first, e := NewerIsApplied(w, Body(kind, entity, ""));
    RunLeavesDeadUnapplied(w, first, id);
    RunIsSafe(w, first);
    RunKeepsOneKeyEach(w, first);
    var second := DeadBecomesLast(Execute(w, first), id, e, kind, entity);
    more := first + second;
    ExecuteAppend(w, first, second);
    CalmBuriesNothing(w, more, kind, entity);
  }

  lemma DeadBecomesLast(w: World, id: string, e: Entry, kind: string, entity: string) returns (steps: seq<Step>)
    requires Retriable(w, id) && About(w.dead[id].body, kind, entity)
    requires EndsWith(w.log, e) && About(e.body, kind, entity) && w.dead[id].number < e.number
    ensures Calm(steps) && Stale(Execute(w, steps).log, kind, entity)
  {
    steps := DeadCanApply(w, id);
    LogGrows(w, steps);
    LastIsStale(w.log, e, Execute(w, steps).log, EntryOf(w.dead[id]), kind, entity);
  }

  lemma LastIsStale(before: seq<Entry>, newer: Entry, log: seq<Entry>, older: Entry, kind: string, entity: string)
    requires before <= log && EndsWith(before, newer) && EndsWith(log, older) && older.number < newer.number
    requires About(newer.body, kind, entity) && About(older.body, kind, entity)
    ensures Stale(log, kind, entity)
  {
    var i, j := |before| - 1, |log| - 1;
    assert log[i] == before[i];
    assert IsLast(log, j, kind, entity);
  }

  // From every state of a run that dead-letters no unapplied message about the entity, a step can
  // lead, with no further such burial, to an older message about it being applied last, exactly when
  // the step is such a burial.
  lemma StaleExactly(steps: seq<Step>, step: Step, kind: string, entity: string)
    requires Unburied(EMPTY, steps, kind, entity)
    ensures var w := Execute(EMPTY, steps);
            (exists more :: StaleBy(Next(w, step), more, kind, entity)) <==> BuriesOpen(w, step, kind, entity)
  {
    var w := Execute(EMPTY, steps);
    RunInTurn(EMPTY, steps, kind, entity);
    if BuriesOpen(w, step, kind, entity) {
      var more := BuriedComesBackLast(w, step, kind, entity);
    } else {
      StepIsSafe(w, step);
      StepKeepsOneKeyEach(w, step);
      StepInTurn(w, step, kind, entity);
      forall more | Unburied(Next(w, step), more, kind, entity) ensures !StaleBy(Next(w, step), more, kind, entity) {
        RunInTurn(Next(w, step), more, kind, entity);
      }
    }
  }

  lemma {:induction false} UnburiedAppend(w: World, a: seq<Step>, b: seq<Step>, kind: string, entity: string)
    requires Unburied(w, a, kind, entity) && Unburied(Execute(w, a), b, kind, entity)
    ensures Unburied(w, a + b, kind, entity)
    decreases |a|
  {
    if a == [] {
      assert a + b == b;
    } else {
      assert (a + b)[1..] == a[1..] + b;
      UnburiedAppend(Next(w, a[0]), a[1..], b, kind, entity);
    }
  }

  // Such a burial is reached: any message whose handler fails twice, the second time when the
  // window is over.
  lemma BurialIsReached(id: string, key: string, body: Body, createdAt: int, now: int, window: int)
    returns (steps: seq<Step>, step: Step)
    requires createdAt >= 0 && window > 0
    ensures Unburied(EMPTY, steps, body.kind, body.entity)
    ensures BuriesOpen(Execute(EMPTY, steps), step, body.kind, body.entity)
  {
    var enqueue := Enqueue(id, key, body, createdAt);
    var w1 := Next(EMPTY, enqueue);
    assert w1.outbox == map[id := Row(key, body, createdAt, 1, None, false, 0, None)] && Alone(w1, id);
    var first := FailsOnce(w1, id, now, window);
    FirstFailureBuriesNothing(w1, id, now, window, body.kind, body.entity);
    var w2 := Execute(w1, first);
    TriesOnce(w2, id);
    CalmBuriesNothing(w2, Trying(id), body.kind, body.entity);
    UnburiedAppend(w1, first, Trying(id), body.kind, body.entity);
    ExecuteAppend(w1, first, Trying(id));
    steps, step := [enqueue] + (first + Trying(id)), RecordFailure(0, now + window, window);
    ExecuteCons(EMPTY, enqueue, first + Trying(id));
    assert steps[1..] == first + Trying(id);
    NobodyElse(w2, Execute(w2, Trying(id)), id);
    assert Buries(Execute(EMPTY, steps), step, id);
  }

  lemma FirstFailureBuriesNothing(w: World, id: string, now: int, window: int, kind: string, entity: string)
    requires Alone(w, id) && window > 0 && w.outbox[id].firstFailedAt.None?
    ensures Unburied(w, Trying(id) + [RecordFailure(0, now, window)], kind, entity)
  {
    var fail := RecordFailure(0, now, window);
    TriesOnce(w, id);
    CalmBuriesNothing(w, Trying(id), kind, entity);
    assert !BuriesOpen(Execute(w, Trying(id)), fail, kind, entity);
    assert [fail][1..] == [];
    UnburiedAppend(w, Trying(id), [fail], kind, entity);
  }
}
