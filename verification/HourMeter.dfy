// Cloud hour meters: the incremental update of a synced shift summary
// (backend/app/sync/handlers/edge_to_cloud.py, backend/app/cloud/maintenance.py) against the
// statement that recomputes every meter from scratch.
module HourMeter {
  import opened Prelude
  import opened Sums

  datatype Machine = Machine(engineHours: real, lastServiceHours: real)

  // rest: the fields of a summary that no meter reads.
  datatype Summary = Summary(engineHours: real, rest: string)

  // shifts: the machine of each shift.
  datatype Tables = Tables(machines: map<string, Machine>, shifts: map<string, string>, summaries: map<string, Summary>)

  // Foreign keys: a summary's shift and a shift's machine exist.
  ghost predicate KeysHold(t: Tables) {
    && (forall s :: s in t.summaries ==> s in t.shifts)
    && (forall s :: s in t.shifts ==> t.shifts[s] in t.machines)
  }

  // The joined rows of one machine.
  ghost function HoursOf(shifts: map<string, string>, summaries: map<string, Summary>, m: string): map<string, real> {
    map s | s in summaries && s in shifts && shifts[s] == m :: summaries[s].engineHours
  }

  // What the full recompute gives machine m.
  ghost function Recomputed(t: Tables, m: string): real
    requires m in t.machines
  {
    t.machines[m].lastServiceHours + Sum(HoursOf(t.shifts, t.summaries, m))
  }

  ghost predicate MetersExact(t: Tables) {
    forall m :: m in t.machines ==> t.machines[m].engineHours == Recomputed(t, m)
  }

  // The tables after one summary.
  function WithSummary(t: Tables, shiftId: string, values: Summary): Tables
    requires shiftId in t.shifts && t.shifts[shiftId] in t.machines
  {
    var previous := if shiftId in t.summaries then t.summaries[shiftId].engineHours else 0.0;
    var m := t.shifts[shiftId];
    var hours := t.machines[m].engineHours + (values.engineHours - previous);
    t.(summaries := t.summaries[shiftId := values], machines := t.machines[m := t.machines[m].(engineHours := hours)])
  }

  lemma HoursMove(shifts: map<string, string>, summaries: map<string, Summary>, shiftId: string, values: Summary,
                  m: string)
    requires shiftId in shifts
    ensures Sum(HoursOf(shifts, summaries[shiftId := values], m)) - Sum(HoursOf(shifts, summaries, m))
         == if shifts[shiftId] != m then 0.0
            else values.engineHours - (if shiftId in summaries then summaries[shiftId].engineHours else 0.0)
  {
    var before, after := HoursOf(shifts, summaries, m), HoursOf(shifts, summaries[shiftId := values], m);
    if shifts[shiftId] != m {
      assert after == before;
    } else {
      assert after == before[shiftId := values.engineHours];
      if shiftId in summaries {
        SumUpdate(before, shiftId, values.engineHours);
      } else {
        SumInsert(before, shiftId, values.engineHours);
      }
    }
  }

  // A new, repeated or corrected summary keeps every meter what the recompute would give.
  lemma SummaryKeepsMeters(t: Tables, shiftId: string, values: Summary)
    requires KeysHold(t) && MetersExact(t) && shiftId in t.shifts
    ensures var t' := WithSummary(t, shiftId, values); KeysHold(t') && MetersExact(t')
  {
    var t' := WithSummary(t, shiftId, values);
    forall m | m in t'.machines ensures t'.machines[m].engineHours == Recomputed(t', m) {
      HoursMove(t.shifts, t.summaries, shiftId, values, m);
    }
  }

  // A repeated summary moves nothing.
  lemma RepeatedSummaryCountsOnce(t: Tables, shiftId: string, values: Summary)
    requires KeysHold(t) && shiftId in t.shifts
    ensures var once := WithSummary(t, shiftId, values); WithSummary(once, shiftId, values) == once
  {
    var once := WithSummary(t, shiftId, values);
    var m := t.shifts[shiftId];
    assert once.machines[m := once.machines[m]] == once.machines;
    assert once.summaries[shiftId := values] == once.summaries;
  }

  // Summaries of known shifts, as they arrive; one for an unknown shift breaks its foreign key
  // and rolls back.
  function Received(t: Tables, arrivals: seq<(string, Summary)>): Tables
    requires KeysHold(t)
    ensures KeysHold(Received(t, arrivals))
  {
    if arrivals == [] then t
    else
      var before := Received(t, arrivals[..|arrivals| - 1]);
      var (shiftId, values) := arrivals[|arrivals| - 1];
      if shiftId in before.shifts then WithSummary(before, shiftId, values) else before
  }

  lemma {:induction false} MetersStayExact(t: Tables, arrivals: seq<(string, Summary)>)
    requires KeysHold(t) && MetersExact(t)
    ensures MetersExact(Received(t, arrivals))
  {
    if arrivals != [] {
      MetersStayExact(t, arrivals[..|arrivals| - 1]);
      var before := Received(t, arrivals[..|arrivals| - 1]);
      var (shiftId, values) := arrivals[|arrivals| - 1];
      if shiftId in before.shifts { SummaryKeepsMeters(before, shiftId, values); }
    }
  }

  // Only the last summary of each shift matters.
  lemma {:induction false} LastSummaryWins(t: Tables, arrivals: seq<(string, Summary)>, shiftId: string)
    requires KeysHold(t) && shiftId in t.shifts
    ensures Received(t, arrivals).shifts == t.shifts
    ensures Get(Received(t, arrivals).summaries, shiftId) == LastOf(arrivals, shiftId, Get(t.summaries, shiftId))
  {
    if arrivals != [] { LastSummaryWins(t, arrivals[..|arrivals| - 1], shiftId); }
  }

  function LastOf(arrivals: seq<(string, Summary)>, shiftId: string, otherwise: Option<Summary>): Option<Summary> {
    if arrivals == [] then otherwise
    else if arrivals[|arrivals| - 1].0 == shiftId then Some(arrivals[|arrivals| - 1].1)
    else LastOf(arrivals[..|arrivals| - 1], shiftId, otherwise)
  }

  // --- The tables as objects ----------------------------------------------------------

  class CloudTables {
    var machines: map<string, Machine>
    var shifts: map<string, string>
    var summaries: map<string, Summary>

    function View(): Tables
      reads this
    {
      Tables(machines, shifts, summaries)
    }

    // apply_shift_summary: ok is false when the foreign key fails; sendsBack when the machine list
    // goes back to the edge.
    method ApplyShiftSummary(shiftId: string, values: Summary) returns (ok: bool, sendsBack: bool)
      requires KeysHold(View())
      modifies this
      ensures shifts == old(shifts) && (ok <==> shiftId in shifts)
      ensures View() == if ok then WithSummary(old(View()), shiftId, values) else old(View())
      ensures KeysHold(View()) && (old(MetersExact(View())) ==> MetersExact(View()))
      ensures sendsBack <==> ok && old(machines[shifts[shiftId]].engineHours) != machines[shifts[shiftId]].engineHours
    {
      ghost var before := View();
      if shiftId !in shifts {
        return false, false;
      }
      var previous := if shiftId in summaries then summaries[shiftId].engineHours else 0.0;
      summaries := summaries[shiftId := values];
      sendsBack := AddShiftHours(shiftId, values.engineHours - previous);
      ok := true;
      assert machines[shifts[shiftId]] == WithSummary(before, shiftId, values).machines[shifts[shiftId]];
      if MetersExact(before) { SummaryKeepsMeters(before, shiftId, values); }
    }

    method AddShiftHours(shiftId: string, delta: real) returns (moved: bool)
      requires shiftId in shifts && shifts[shiftId] in machines
      modifies this`machines
      ensures moved <==> delta != 0.0
      ensures var m := shifts[shiftId];
              machines == old(machines)[m := old(machines)[m].(engineHours := old(machines)[m].engineHours + delta)]
    {
      var m := shifts[shiftId];
      if delta == 0.0 {
        assert machines[m := machines[m]] == machines;
        return false;
      }
      machines := machines[m := machines[m].(engineHours := machines[m].engineHours + delta)];
      moved := true;
    }
  }
}
