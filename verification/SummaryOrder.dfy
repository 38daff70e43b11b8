// Which shift summary the cloud keeps (backend/app/sync/handlers/edge_to_cloud.py): the handler has
// no sequence guard, so it is the one applied last.
module SummaryOrder {
  import opened Prelude
  import opened Delivery
  import opened Replicas
  import opened EntityOrder
  import HourMeter

  const KIND := "shift_summary"

  // The summaries a delivery log brings; the entity of such a message is its shift.
  function Arrivals(log: seq<Entry>, decode: string -> HourMeter.Summary): seq<(string, HourMeter.Summary)> {
    if log == [] then []
    else
      var e, before := log[|log| - 1], Arrivals(log[..|log| - 1], decode);
      if e.body.kind == KIND then before + [(e.body.entity, decode(e.body.payload))] else before
  }

  // The summary of the message about the shift that was applied last.
  ghost predicate FromLast(log: seq<Entry>, decode: string -> HourMeter.Summary, shiftId: string,
                           stored: Option<HourMeter.Summary>, j: nat) {
    IsLast(log, j, KIND, shiftId) && stored == Some(decode(log[j].body.payload))
  }

  lemma ArrivalsSnoc(before: seq<Entry>, e: Entry, decode: string -> HourMeter.Summary, shiftId: string,
                     otherwise: Option<HourMeter.Summary>)
    ensures HourMeter.LastOf(Arrivals(before + [e], decode), shiftId, otherwise)
         == if About(e.body, KIND, shiftId) then Some(decode(e.body.payload))
            else HourMeter.LastOf(Arrivals(before, decode), shiftId, otherwise)
  {
    assert (before + [e])[..|before|] == before;
    var arrivals := Arrivals(before, decode);
    if e.body.kind == KIND {
      var all := arrivals + [(e.body.entity, decode(e.body.payload))];
      assert Arrivals(before + [e], decode) == all && all[..|all| - 1] == arrivals;
    }
  }

  lemma {:induction false} StoredIsLastApplied(log: seq<Entry>, decode: string -> HourMeter.Summary, shiftId: string,
                                               otherwise: Option<HourMeter.Summary>)
    requires Mentions(log, KIND, shiftId)
    ensures exists j: nat ::
              FromLast(log, decode, shiftId, HourMeter.LastOf(Arrivals(log, decode), shiftId, otherwise), j)
  {
    var n := |log| - 1;
    var e, before := log[n], log[..n];
    assert log == before + [e];
    MentionsOneMore(before, e, KIND, shiftId);
    ArrivalsSnoc(before, e, decode, shiftId, otherwise);
    var stored := HourMeter.LastOf(Arrivals(log, decode), shiftId, otherwise);
    if About(e.body, KIND, shiftId) {
      assert FromLast(log, decode, shiftId, stored, n);
    } else {
      StoredIsLastApplied(before, decode, shiftId, otherwise);
      var j: nat :| FromLast(before, decode, shiftId, stored, j);
      assert FromLast(log, decode, shiftId, stored, j);
    }
  }

  // Over every run of the worker that dead-letters no unapplied summary of the shift, the stored
  // summary is the one sent last among those applied.
  lemma StoredSummaryIsLatest(steps: seq<Step>, t: HourMeter.Tables, decode: string -> HourMeter.Summary,
                              shiftId: string)
    requires Unburied(EMPTY, steps, KIND, shiftId) && HourMeter.KeysHold(t) && shiftId in t.shifts
    requires Mentions(Execute(EMPTY, steps).log, KIND, shiftId)
    ensures var log := Execute(EMPTY, steps).log;
            exists e :: Latest(log, e) && About(e.body, KIND, shiftId)
                   && Get(HourMeter.Received(t, Arrivals(log, decode)).summaries, shiftId)
                      == Some(decode(e.body.payload))
  {
    var log := Execute(EMPTY, steps).log;
    EntityAppliedInOrder(steps, KIND, shiftId);
    HourMeter.LastSummaryWins(t, Arrivals(log, decode), shiftId);
    StoredIsLastApplied(log, decode, shiftId, Get(t.summaries, shiftId));
    var stored := HourMeter.LastOf(Arrivals(log, decode), shiftId, Get(t.summaries, shiftId));
    var j: nat :| FromLast(log, decode, shiftId, stored, j);
    LastIsLatest(log, j, shiftId);
  }

  lemma LastIsLatest(log: seq<Entry>, j: nat, shiftId: string)
    requires Ascends(log, KIND, shiftId) && IsLast(log, j, KIND, shiftId)
    ensures Latest(log, log[j])
  {
    forall f | f in log && f.body.kind == KIND && f.body.entity == shiftId ensures f.number <= log[j].number {
      var i :| 0 <= i < |log| && log[i] == f;
      assert About(log[i].body, KIND, shiftId);
    }
  }
}
