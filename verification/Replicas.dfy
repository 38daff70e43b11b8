// What the receiving tables hold after any delivery order. Handlers: shift records and
// snapshots (backend/app/sync/handlers/cloud_to_edge.py), incidents and insert-once records
// (backend/app/sync/handlers/edge_to_cloud.py).
module Replicas {
  import opened Prelude
  import opened Delivery

  // A replicated row and the sequence of the message that wrote it.
  datatype Versioned = Versioned(payload: string, syncSeq: int)

  type Table = map<string, Versioned>

  // apply_shift_record and apply_incident: insert, or overwrite with a newer message.
  function Upserted(t: Table, body: Body, number: int): Table {
    if body.entity !in t || number > t[body.entity].syncSeq then t[body.entity := Versioned(body.payload, number)]
    else t
  }

  // A row is written once per sequence.
  lemma SameSequenceWritesOnce(t: Table, body: Body, other: Body, number: int)
    requires body.entity == other.entity
    ensures Upserted(Upserted(t, body, number), other, number) == Upserted(t, body, number)
  {
  }

  // Every snapshot handler: skipped when the inbox holds a newer snapshot of its type.
  ghost predicate NewerApplied(inbox: seq<Entry>, kind: string, number: int) {
    exists i :: 0 <= i < |inbox| && inbox[i].body.kind == kind && inbox[i].number > number
  }

  ghost function Replaced(copy: Option<string>, inbox: seq<Entry>, body: Body, number: int): Option<string> {
    if NewerApplied(inbox, body.kind, number) then copy else Some(body.payload)
  }

  // Behavior events, quiz results and audit records: inserted once by their id.
  function InsertedOnce(t: map<string, string>, body: Body): map<string, string> {
    if body.entity in t then t else t[body.entity := body.payload]
  }

  // --- The tables, written in place -------------------------------------------------

  class ReplicaTables {
    var rows: Table                   // shifts on the edge, incidents in the cloud
    var snapshot: Option<string>      // the copy of one snapshot type
    var inbox: seq<Entry>
    var records: map<string, string>  // insert-once records

    method ApplyRow(body: Body, number: int)
      modifies this`rows
      ensures rows == Upserted(old(rows), body, number)
    {
      if body.entity !in rows {
        rows := rows[body.entity := Versioned(body.payload, number)];
      } else if number > rows[body.entity].syncSeq {
        var row := rows[body.entity].(payload := body.payload);
        row := row.(syncSeq := number);
        rows := rows[body.entity := row];
      }
    }

    // The highest sequence applied for a snapshot type, as the guard's query returns it.
    method LatestApplied(kind: string) returns (latest: Option<int>)
      ensures latest.None? <==> forall i :: 0 <= i < |inbox| ==> inbox[i].body.kind != kind
      ensures latest.Some? ==>
                exists i :: 0 <= i < |inbox| && inbox[i].body.kind == kind && inbox[i].number == latest.value
      ensures latest.Some? ==>
                forall i :: 0 <= i < |inbox| && inbox[i].body.kind == kind ==> inbox[i].number <= latest.value
    {
      latest := None;
      for i := 0 to |inbox|
        invariant latest.None? <==> forall j :: 0 <= j < i ==> inbox[j].body.kind != kind
        invariant latest.Some? ==>
                    exists j :: 0 <= j < i && inbox[j].body.kind == kind && inbox[j].number == latest.value
        invariant latest.Some? ==>
                    forall j :: 0 <= j < i && inbox[j].body.kind == kind ==> inbox[j].number <= latest.value
      {
        if inbox[i].body.kind == kind && (latest.None? || latest.value < inbox[i].number) {
          latest := Some(inbox[i].number);
        }
      }
    }

    method ApplySnapshot(body: Body, number: int)
      modifies this`snapshot
      ensures snapshot == Replaced(old(snapshot), inbox, body, number)
    {
      var latest := LatestApplied(body.kind);
      if latest.Some? && latest.value > number {
        return;
      }
      snapshot := None;
      snapshot := Some(body.payload);
    }

    method InsertOnce(body: Body)
      modifies this`records
      ensures records == InsertedOnce(old(records), body)
    {
      if body.entity !in records {
        records := records[body.entity := body.payload];
      }
    }

    // The tables are what this log of applied messages leaves.
    ghost predicate Reflects(log: seq<Entry>, rowKind: string, copyKind: string, recordKind: string)
      reads this
    {
      && inbox == log && rows == Rows(log, rowKind) && snapshot == Snapshot(log, copyKind)
      && records == Records(log, recordKind)
    }

    // One message, dispatched to the handler of its type, and its inbox entry.
    method Receive(e: Entry, rowKind: string, copyKind: string, recordKind: string)
      requires rowKind != copyKind && copyKind != recordKind && recordKind != rowKind
      requires Reflects(inbox, rowKind, copyKind, recordKind)
      modifies this
      ensures inbox == old(inbox) + [e] && Reflects(inbox, rowKind, copyKind, recordKind)
    {
      ghost var before := inbox;
      assert (before + [e])[..|before|] == before;
      if e.body.kind == rowKind {
        ApplyRow(e.body, e.number);
      } else if e.body.kind == copyKind {
        ApplySnapshot(e.body, e.number);
      } else if e.body.kind == recordKind {
        InsertOnce(e.body);
      }
      inbox := inbox + [e];
    }

    // From empty tables, any log of messages leaves the rows, the copy and the records specified for it.
    method ReceiveAll(log: seq<Entry>, rowKind: string, copyKind: string, recordKind: string)
      requires rowKind != copyKind && copyKind != recordKind && recordKind != rowKind
      requires rows == map[] && snapshot == None && inbox == [] && records == map[]
      modifies this
      ensures Reflects(log, rowKind, copyKind, recordKind)
    {
      for i := 0 to |log|
        invariant inbox == log[..i] && Reflects(inbox, rowKind, copyKind, recordKind)
      {
        Receive(log[i], rowKind, copyKind, recordKind);
      }
      assert log[..|log|] == log;
    }
  }

  // --- After a whole delivery log ---------------------------------------------------

  function Rows(log: seq<Entry>, kind: string): Table {
    if log == [] then map[]
    else
      var e := log[|log| - 1];
      var before := Rows(log[..|log| - 1], kind);
      if e.body.kind == kind then Upserted(before, e.body, e.number) else before
  }

  function Records(log: seq<Entry>, kind: string): map<string, string> {
    if log == [] then map[]
    else
      var e := log[|log| - 1];
      var before := Records(log[..|log| - 1], kind);
      if e.body.kind == kind then InsertedOnce(before, e.body) else before
  }

  // Message i is the first one about its entity.
  ghost predicate FirstAbout(log: seq<Entry>, i: nat, kind: string, entity: string) {
    && i < |log| && log[i].body.kind == kind && log[i].body.entity == entity
    && forall j :: 0 <= j < i ==> log[j].body.kind != kind || log[j].body.entity != entity
  }

  lemma MentionsOneMore(before: seq<Entry>, last: Entry, kind: string, entity: string)
    ensures Mentions(before + [last], kind, entity)
       <==> Mentions(before, kind, entity) || (last.body.kind == kind && last.body.entity == entity)
  {
    assert forall f :: f in before + [last] <==> f in before || f == last;
  }

  lemma FirstOneMore(before: seq<Entry>, last: Entry, kind: string, entity: string)
    ensures forall i: nat :: FirstAbout(before, i, kind, entity) ==> FirstAbout(before + [last], i, kind, entity)
    ensures !Mentions(before, kind, entity) && last.body.kind == kind && last.body.entity == entity ==>
              FirstAbout(before + [last], |before|, kind, entity)
  {
    forall j | 0 <= j < |before| ensures before[j] in before {}
  }

  // An insert-once record exists exactly for the ids delivered, and holds the first payload
  // delivered for its id, whatever came later.
  lemma {:induction false} FirstRecordStays(log: seq<Entry>, kind: string, entity: string)
    ensures entity in Records(log, kind) <==> Mentions(log, kind, entity)
    ensures entity in Records(log, kind) ==>
              exists i: nat :: FirstAbout(log, i, kind, entity) && Records(log, kind)[entity] == log[i].body.payload
  {
    if log != [] {
      var n := |log| - 1;
      var before, last := log[..n], log[n];
      assert log == before + [last];
      FirstRecordStays(before, kind, entity);
      MentionsOneMore(before, last, kind, entity);
      FirstOneMore(before, last, kind, entity);
      if entity in Records(before, kind) {
        var i: nat :| FirstAbout(before, i, kind, entity) && Records(before, kind)[entity] == before[i].body.payload;
        assert FirstAbout(log, i, kind, entity);
      } else if last.body.kind == kind && last.body.entity == entity {
        assert FirstAbout(log, n, kind, entity);
      }
    }
  }

  // A repeated record inserts nothing.
  lemma RepeatInsertsNothing(log: seq<Entry>, e: Entry, kind: string)
    requires Mentions(log, e.body.kind, e.body.entity)
    ensures Records(log + [e], kind) == Records(log, kind)
  {
    assert (log + [e])[..|log|] == log;
    FirstRecordStays(log, kind, e.body.entity);
  }

  ghost function Snapshot(log: seq<Entry>, kind: string): Option<string> {
    if log == [] then None
    else
      var inbox, e := log[..|log| - 1], log[|log| - 1];
      var before := Snapshot(inbox, kind);
      if e.body.kind == kind then Replaced(before, inbox, e.body, e.number) else before
  }

  // e is the entry with the highest sequence about its entity.
  ghost predicate Latest(log: seq<Entry>, e: Entry) {
    && e in log
    && forall f :: f in log && f.body.kind == e.body.kind && f.body.entity == e.body.entity ==> f.number <= e.number
  }

  ghost predicate Mentions(log: seq<Entry>, kind: string, entity: string) {
    exists e :: e in log && e.body.kind == kind && e.body.entity == entity
  }

  // The row of an entity after a log.
  ghost predicate RowFrom(log: seq<Entry>, kind: string, entity: string, row: Versioned, e: Entry) {
    && Latest(log, e) && e.body.kind == kind && e.body.entity == entity && row == Versioned(e.body.payload, e.number)
  }

  lemma LatestOneMore(before: seq<Entry>, last: Entry, e: Entry)
    requires Latest(before, e)
    ensures last.body.kind != e.body.kind || last.body.entity != e.body.entity || last.number <= e.number ==>
              Latest(before + [last], e)
    ensures last.body.kind == e.body.kind && last.body.entity == e.body.entity && last.number > e.number ==>
              Latest(before + [last], last)
  {
    assert forall f :: f in before + [last] <==> f in before || f == last;
  }

  lemma FirstIsLatest(before: seq<Entry>, last: Entry)
    requires !Mentions(before, last.body.kind, last.body.entity)
    ensures Latest(before + [last], last)
  {
    assert forall f :: f in before + [last] <==> f in before || f == last;
  }

  // Whatever the order, a row exists exactly for the entities delivered, and holds the payload
  // of the message with the highest sequence about it.
  lemma {:induction false} RowIsLatest(log: seq<Entry>, kind: string, entity: string)
    requires DistinctNumbers(log)
    ensures entity in Rows(log, kind) <==> Mentions(log, kind, entity)
    ensures entity in Rows(log, kind) ==> exists e :: RowFrom(log, kind, entity, Rows(log, kind)[entity], e)
  {
    if log != [] {
      var n := |log| - 1;
      var before, last := log[..n], log[n];
      assert log == before + [last];
      RowIsLatest(before, kind, entity);
      MentionsOneMore(before, last, kind, entity);
      if entity in Rows(before, kind) {
        var e :| RowFrom(before, kind, entity, Rows(before, kind)[entity], e);
        LatestOneMore(before, last, e);
        assert RowFrom(log, kind, entity, Rows(log, kind)[entity], e)
            || RowFrom(log, kind, entity, Rows(log, kind)[entity], last);
      } else if last.body.kind == kind && last.body.entity == entity {
        FirstIsLatest(before, last);
        assert RowFrom(log, kind, entity, Rows(log, kind)[entity], last);
      }
    }
  }

  ghost predicate LatestOfKind(log: seq<Entry>, e: Entry) {
    e in log && forall f :: f in log && f.body.kind == e.body.kind ==> f.number <= e.number
  }

  // What a snapshot table holds after a log.
  ghost predicate CopyFrom(log: seq<Entry>, kind: string, payload: string, e: Entry) {
    LatestOfKind(log, e) && e.body.kind == kind && e.body.payload == payload
  }

  lemma NewerIsApplied(before: seq<Entry>, last: Entry)
    ensures NewerApplied(before, last.body.kind, last.number)
       <==> exists f :: f in before && f.body.kind == last.body.kind && f.number > last.number
  {
    if f :| f in before && f.body.kind == last.body.kind && f.number > last.number {
      var i :| 0 <= i < |before| && before[i] == f;
      assert before[i].body.kind == last.body.kind;
    }
  }

  lemma CopyOneMore(before: seq<Entry>, last: Entry, kind: string, e: Entry)
    requires CopyFrom(before, kind, e.body.payload, e)
    requires last.body.kind != kind || NewerApplied(before, kind, last.number)
    ensures CopyFrom(before + [last], kind, e.body.payload, e)
  {
    NewerIsApplied(before, last);
    assert forall f :: f in before + [last] <==> f in before || f == last;
  }

  lemma LastIsCopied(before: seq<Entry>, last: Entry)
    requires !NewerApplied(before, last.body.kind, last.number)
    ensures CopyFrom(before + [last], last.body.kind, last.body.payload, last)
  {
    NewerIsApplied(before, last);
    assert forall f :: f in before + [last] <==> f in before || f == last;
  }

  // Whatever the order, a snapshot table holds the snapshot with the highest sequence.
  lemma {:induction false} SnapshotIsLatest(log: seq<Entry>, kind: string)
    requires DistinctNumbers(log)
    ensures Snapshot(log, kind).None? <==> forall e :: e in log ==> e.body.kind != kind
    ensures Snapshot(log, kind).Some? ==> exists e :: CopyFrom(log, kind, Snapshot(log, kind).value, e)
  {
    if log != [] {
      var n := |log| - 1;
      var before, last := log[..n], log[n];
      assert log == before + [last];
      SnapshotIsLatest(before, kind);
      assert forall f :: f in log <==> f in before || f == last;
      if last.body.kind == kind && !NewerApplied(before, kind, last.number) {
        LastIsCopied(before, last);
      } else {
        NewerIsApplied(before, last);
        if Snapshot(before, kind).Some? {
          var e :| CopyFrom(before, kind, Snapshot(before, kind).value, e);
          CopyOneMore(before, last, kind, e);
        }
      }
    }
  }

  lemma SameNumberSameEntry(log: seq<Entry>, e: Entry, f: Entry)
    requires DistinctNumbers(log) && e in log && f in log && e.number == f.number
    ensures e == f
  {
    var i :| 0 <= i < |log| && log[i] == e;
    var j :| 0 <= j < |log| && log[j] == f;
  }

  // Two delivery orders of the same messages leave the same tables.
  lemma OrderDoesNotMatter(a: seq<Entry>, b: seq<Entry>, kind: string)
    requires DistinctNumbers(a) && DistinctNumbers(b)
    requires forall e :: e in a <==> e in b
    ensures Rows(a, kind) == Rows(b, kind)
    ensures Snapshot(a, kind) == Snapshot(b, kind)
  {
    forall entity: string
      ensures entity in Rows(a, kind) <==> entity in Rows(b, kind)
      ensures entity in Rows(a, kind) ==> Rows(a, kind)[entity] == Rows(b, kind)[entity]
    {
      RowIsLatest(a, kind, entity);
      RowIsLatest(b, kind, entity);
      if entity in Rows(a, kind) {
        var e :| RowFrom(a, kind, entity, Rows(a, kind)[entity], e);
        var f :| RowFrom(b, kind, entity, Rows(b, kind)[entity], f);
        SameNumberSameEntry(a, e, f);
      }
    }
    SnapshotIsLatest(a, kind);
    SnapshotIsLatest(b, kind);
    if Snapshot(a, kind).Some? {
      var e :| CopyFrom(a, kind, Snapshot(a, kind).value, e);
      assert e in b;
      var f :| CopyFrom(b, kind, Snapshot(b, kind).value, f);
      SameNumberSameEntry(a, e, f);
    }
  }

  // In every run of the worker, with any dead-lettering and retrying, each row holds the payload
  // of the applied message with the highest sequence about its entity, and each snapshot table
  // the snapshot with the highest sequence. While no message still to be applied is dead-lettered
  // twice, these are the sequences the messages were first sent with.
  lemma ReplicasAfterAnyRun(steps: seq<Step>, kind: string, entity: string)
    ensures var log := Execute(EMPTY, steps).log;
            && (entity in Rows(log, kind) <==> Mentions(log, kind, entity))
            && (entity in Rows(log, kind) ==>
                  exists e :: RowFrom(log, kind, entity, Rows(log, kind)[entity], e))
    ensures var log := Execute(EMPTY, steps).log;
            && (Snapshot(log, kind).None? <==> forall e :: e in log ==> e.body.kind != kind)
            && (Snapshot(log, kind).Some? ==>
                  exists e :: CopyFrom(log, kind, Snapshot(log, kind).value, e))
    ensures OneCycle(EMPTY, steps) ==>
              forall e :: e in Execute(EMPTY, steps).log ==> FromMessage(Execute(EMPTY, steps).first, e)
  {
    AppliedNumbersAreDistinct(steps);
    RowIsLatest(Execute(EMPTY, steps).log, kind, entity);
    SnapshotIsLatest(Execute(EMPTY, steps).log, kind);
    if OneCycle(EMPTY, steps) { AppliedWithOriginalNumbers(steps); }
  }

  // After a second trip through the dead letters they are not: the old message comes back with the
  // sequence of its first retry and overwrites everything sent before that retry.
  lemma SecondDeadLetterOverwritesNewer(stale: Row, newer: Entry, first: int, second: int)
    requires stale.replayNumber.None? && stale.number < newer.number < first < second
    requires newer.body.kind == stale.body.kind && newer.body.entity == stale.body.entity
    ensures var late := Revived(Buried(Revived(Buried(stale), first)), second);
            var log := [newer, Entry(late.key, late.body, Effective(late))];
            Rows(log, newer.body.kind)[newer.body.entity].payload == stale.body.payload
  {
    var late := Revived(Buried(Revived(Buried(stale), first)), second);
    var log := [newer, Entry(late.key, late.body, Effective(late))];
    assert log[..1] == [newer] && [newer][..0] == [];
    assert Rows([newer], newer.body.kind) == map[newer.body.entity := Versioned(newer.body.payload, newer.number)];
  }
}
