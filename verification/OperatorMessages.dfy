// What the operator is told and what is written when the rules of an engine are evaluated
// (backend/app/edge/safety/engine.py).
module OperatorMessages {
  import opened Prelude
  import opened RuleMachine
  import opened SafetyEngine

  // Told of a change of the unknown flag: once when readings stop being usable, once when they are again.
  function FlagMessages(s: Slot, i: Input): seq<Effect> {
    if i.Unknown? && !s.unknown then [Message(s.name, SENSOR_FAULT, false)]
    else if i.Judged? && s.unknown then [Message(s.name, RESTORED, false)]
    else []
  }

  // The incident the slot holds ends with this evaluation as resolved: a WARNING, or a CRITICAL one
  // acknowledged while it lasted.
  predicate EndsResolved(row: Incident) { !row.critical || row.status == ACKNOWLEDGED }

  // A rule that raises is switched off with a message; one that is off says and does nothing.
  lemma RaisingDegrades(w: Work, k: nat, t: Tick)
    requires k < |w.engine.slots| && k < |t.readings| && (w.engine.slots[k].degraded || t.readings[k].Raises?)
    ensures var r, s := Evaluated(w, k, t), w.engine.slots[k];
            && r.rows == w.rows && r.engine.slots == w.engine.slots[k := s.(degraded := true)]
            && r.engine.unresolved == w.engine.unresolved
            && r.engine.effects == w.engine.effects + if s.degraded then [] else [Message(s.name, DEGRADED, false)]
  {
    if w.engine.slots[k].degraded {
      assert w.engine.slots[k := w.engine.slots[k]] == w.engine.slots;
      assert w.engine.effects + [] == w.engine.effects;
    }
  }

  // A reading that opens, escalates and closes nothing.
  lemma QuietReadingTells(w: Work, k: nat, t: Tick)
    requires k < |w.engine.slots| && k < |t.readings| && !w.engine.slots[k].degraded && t.readings[k].Reads?
    requires Step(w.engine.slots[k].config, w.engine.slots[k].machine, t.readings[k].input).1 == QUIET
    ensures var r, s := Evaluated(w, k, t), w.engine.slots[k];
            && r.rows == w.rows && r.engine.unresolved == w.engine.unresolved
            && r.engine.slots[k].unknown == t.readings[k].input.Unknown? && r.engine.slots[k].openId == s.openId
            && r.engine.effects == w.engine.effects + FlagMessages(s, t.readings[k].input)
  {
    assert w.engine.effects + [] == w.engine.effects;
  }

  // An opening writes the row, tracks the incident, and tells the driver and the operator.
  lemma OpeningTells(w: Work, k: nat, t: Tick)
    requires k < |w.engine.slots| && k < |t.readings| && !w.engine.slots[k].degraded && t.readings[k].Reads?
    requires Step(w.engine.slots[k].config, w.engine.slots[k].machine, t.readings[k].input).1.opens
    ensures var r, s, id := Evaluated(w, k, t), w.engine.slots[k], t.readings[k].newId;
            && id in r.rows && r.rows == w.rows[id := r.rows[id]]
            && r.rows[id] == Incident(w.engine.machineId, t.operatorId, true, r.rows[id].critical, OPEN, None, None)
            && r.engine.unresolved == w.engine.unresolved + {id} && r.engine.slots[k].openId == Some(id)
            && r.engine.slots[k].unknown == t.readings[k].input.Unknown?
            && r.engine.effects == w.engine.effects + FlagMessages(s, t.readings[k].input)
                                   + [NotifyOpened] + [Message(s.name, OPENED(id), r.rows[id].critical)]
  {
    assert w.engine.effects + [] == w.engine.effects;
  }

  // An escalation raises the stored severity, once, and tells the operator.
  lemma EscalationTells(w: Work, k: nat, t: Tick)
    requires k < |w.engine.slots| && k < |t.readings| && !w.engine.slots[k].degraded && t.readings[k].Reads?
    requires Step(w.engine.slots[k].config, w.engine.slots[k].machine, t.readings[k].input).1.escalates
    requires SlotLinked(w.engine.slots[k], w.engine.machineId, w.rows, w.engine.unresolved)
    ensures w.engine.slots[k].openId.Some?
    ensures var r, s, id := Evaluated(w, k, t), w.engine.slots[k], w.engine.slots[k].openId.value;
            && !w.rows[id].critical && r.rows == w.rows[id := w.rows[id].(critical := true)]
            && r.engine.unresolved == w.engine.unresolved && r.engine.slots[k].openId == Some(id)
            && r.engine.slots[k].unknown == t.readings[k].input.Unknown?
            && r.engine.effects == w.engine.effects + FlagMessages(s, t.readings[k].input)
                                   + [Message(s.name, ESCALATED(id), true)]
  {
    assert w.engine.effects + [] == w.engine.effects;
  }

  // A closing dates the end of the incident and resolves it or leaves it for the operator; the driver
  // hears of it in the first case only.
  lemma ClosingTells(w: Work, k: nat, t: Tick)
    requires k < |w.engine.slots| && k < |t.readings| && !w.engine.slots[k].degraded && t.readings[k].Reads?
    requires Step(w.engine.slots[k].config, w.engine.slots[k].machine, t.readings[k].input).1.closes
    requires SlotLinked(w.engine.slots[k], w.engine.machineId, w.rows, w.engine.unresolved) && RowsSound(w.rows)
    ensures w.engine.slots[k].openId.Some?
    ensures var r, s, id := Evaluated(w, k, t), w.engine.slots[k], w.engine.slots[k].openId.value;
            var resolved := EndsResolved(w.rows[id]);
            && r.rows == w.rows[id := w.rows[id].(eventEnd := Some(t.ts),
                                                  status := if resolved then RESOLVED else OPEN)]
            && r.engine.unresolved == (if resolved then w.engine.unresolved - {id} else w.engine.unresolved)
            && r.engine.slots[k].openId.None? && r.engine.slots[k].unknown == t.readings[k].input.Unknown?
            && r.engine.effects == w.engine.effects + FlagMessages(s, t.readings[k].input)
                                   + (if resolved then [NotifyClosed] else [])
                                   + [Message(s.name, Event.CLOSED(id), w.rows[id].critical)]
  {
    assert w.engine.effects + [] == w.engine.effects;
  }

  // --- Over a whole tick ------------------------------------------------------------

  // Faults reported for a rule, less those reported as over.
  ghost function OpenFaults(effects: seq<Effect>, name: string): int {
    multiset(effects)[Message(name, SENSOR_FAULT, false)] as int
    - multiset(effects)[Message(name, RESTORED, false)] as int
  }

  function FaultOf(e: Effect, name: string): int {
    if e == Message(name, SENSOR_FAULT, false) then 1 else if e == Message(name, RESTORED, false) then -1 else 0
  }

  function Flag(s: Slot): int { if s.unknown then 1 else 0 }

  lemma FaultsSnoc(effects: seq<Effect>, e: Effect, name: string)
    ensures OpenFaults(effects + [e], name) == OpenFaults(effects, name) + FaultOf(e, name)
  {
    assert multiset(effects + [e]) == multiset(effects) + multiset{e};
  }

  ghost predicate DistinctNames(slots: seq<Slot>) {
    forall i, j :: 0 <= i < j < |slots| ==> slots[i].name != slots[j].name
  }

  lemma FlagIsReported(w: Work, k: nat, unknown: bool, name: string)
    requires k < |w.engine.slots|
    ensures var r := TrackUnknown(w, k, unknown);
            && |r.engine.slots| == |w.engine.slots| && r.engine.slots == w.engine.slots[k := r.engine.slots[k]]
            && r.engine.slots[k].name == w.engine.slots[k].name && r.engine.slots[k].unknown == unknown
            && OpenFaults(r.engine.effects, name)
               == OpenFaults(w.engine.effects, name)
                  + if w.engine.slots[k].name == name then Flag(r.engine.slots[k]) - Flag(w.engine.slots[k]) else 0
  {
    var e := Message(w.engine.slots[k].name, if unknown then SENSOR_FAULT else RESTORED, false);
    FaultsSnoc(w.engine.effects, e, name);
  }

  // What an incident's opening, escalation or closing does leaves the faults alone.
  lemma OpeningReportsNoFault(w: Work, k: nat, t: Tick, id: string, name: string)
    requires k < |w.engine.slots| && w.engine.slots[k].machine.Active?
    ensures SameFaults(w, OpenIncident(w, k, t, id), k, name)
  {
    var critical := OpenIncident(w, k, t, id).rows[id].critical;
    FaultsSnoc(w.engine.effects, NotifyOpened, name);
    FaultsSnoc(w.engine.effects + [NotifyOpened], Message(w.engine.slots[k].name, OPENED(id), critical), name);
  }

  lemma EscalationReportsNoFault(w: Work, k: nat, id: string, name: string)
    requires k < |w.engine.slots|
    ensures SameFaults(w, EscalateIncident(w, k, id), k, name)
  {
    FaultsSnoc(w.engine.effects, Message(w.engine.slots[k].name, ESCALATED(id), true), name);
    assert w.engine.slots[k := w.engine.slots[k]] == w.engine.slots;
  }

  lemma ClosingEffectsAre(w: Work, k: nat, id: string, ts: real)
    requires k < |w.engine.slots|
    ensures var r, s := CloseIncident(w, k, id, ts), w.engine.slots[k];
            var e := Message(s.name, Event.CLOSED(id), if s.machine.Closed? then s.machine.critical else false);
            && r.engine.slots == w.engine.slots[k := s.(openId := None)]
            && (r.engine.effects == w.engine.effects + [e]
                || r.engine.effects == w.engine.effects + [NotifyClosed] + [e])
  {
  }

  lemma ClosingReportsNoFault(w: Work, k: nat, id: string, ts: real, name: string)
    requires k < |w.engine.slots|
    ensures SameFaults(w, CloseIncident(w, k, id, ts), k, name)
  {
    var s, before := w.engine.slots[k], w.engine.effects;
    var e := Message(s.name, Event.CLOSED(id), if s.machine.Closed? then s.machine.critical else false);
    ClosingEffectsAre(w, k, id, ts);
    FaultsSnoc(before, e, name);
    FaultsSnoc(before, NotifyClosed, name);
    FaultsSnoc(before + [NotifyClosed], e, name);
  }

  ghost predicate SameFaults(w: Work, r: Work, k: nat, name: string)
    requires k < |w.engine.slots|
  {
    && |r.engine.slots| == |w.engine.slots| && r.engine.slots == w.engine.slots[k := r.engine.slots[k]]
    && r.engine.slots[k].name == w.engine.slots[k].name && Flag(r.engine.slots[k]) == Flag(w.engine.slots[k])
    && OpenFaults(r.engine.effects, name) == OpenFaults(w.engine.effects, name)
  }

  // Only slot k changed, not its name, and the faults reported for the rule of this name moved as its
  // flag did.
  ghost predicate Reports(w: Work, r: Work, k: nat, name: string)
    requires k < |w.engine.slots|
  {
    && |r.engine.slots| == |w.engine.slots| && r.engine.slots == w.engine.slots[k := r.engine.slots[k]]
    && r.engine.slots[k].name == w.engine.slots[k].name
    && OpenFaults(r.engine.effects, name)
       == OpenFaults(w.engine.effects, name)
          + if w.engine.slots[k].name == name then Flag(r.engine.slots[k]) - Flag(w.engine.slots[k]) else 0
  }

  lemma SameAfterReports(w: Work, read: Work, r: Work, k: nat, name: string)
    requires k < |w.engine.slots| && Reports(w, read, k, name) && SameFaults(read, r, k, name)
    ensures Reports(w, r, k, name)
  {
  }

  lemma ReadingReports(w: Work, k: nat, m: Machine, unknown: bool, name: string)
    requires k < |w.engine.slots|
    ensures Reports(w, TrackUnknown(WithSlot(w, k, w.engine.slots[k].(machine := m)), k, unknown), k, name)
  {
    FlagIsReported(WithSlot(w, k, w.engine.slots[k].(machine := m)), k, unknown, name);
  }

  // One evaluation reports a fault, or its end, of its own rule only, and only as its flag changes.
  lemma EvaluationReports(w: Work, k: nat, t: Tick, name: string)
    requires k < |w.engine.slots| && k < |t.readings|
    ensures Reports(w, Evaluated(w, k, t), k, name)
  {
    var s := w.engine.slots[k];
    if s.degraded {
      assert w.engine.slots[k := w.engine.slots[k]] == w.engine.slots;
    } else if t.readings[k].Raises? {
      FaultsSnoc(w.engine.effects, Message(s.name, DEGRADED, false), name);
    } else {
      UsableReports(w, k, t, name);
    }
  }

  lemma UsableReports(w: Work, k: nat, t: Tick, name: string)
    requires k < |w.engine.slots| && k < |t.readings| && !w.engine.slots[k].degraded && t.readings[k].Reads?
    ensures Reports(w, Evaluated(w, k, t), k, name)
  {
    var s, r := w.engine.slots[k], Evaluated(w, k, t);
    var (m, out) := Step(s.config, s.machine, t.readings[k].input);
    ReadingReports(w, k, m, t.readings[k].input.Unknown?, name);
    var read := TrackUnknown(WithSlot(w, k, s.(machine := m)), k, t.readings[k].input.Unknown?);
    if out.opens {
      OpeningReportsNoFault(read, k, t, t.readings[k].newId, name);
      SameAfterReports(w, read, r, k, name);
    } else if out.escalates && s.openId.Some? {
      EscalationReportsNoFault(read, k, s.openId.value, name);
      SameAfterReports(w, read, r, k, name);
    } else if out.closes && s.openId.Some? {
      ClosingReportsNoFault(read, k, s.openId.value, t.ts, name);
      SameAfterReports(w, read, r, k, name);
    }
  }

  ghost predicate FlagsFollow(w: Work, r: Work, k: nat)
    requires k < |w.engine.slots|
  {
    && |r.engine.slots| == |w.engine.slots|
    && (forall j :: 0 <= j < |w.engine.slots| ==> r.engine.slots[j].name == w.engine.slots[j].name)
    && Flag(r.engine.slots[k]) - Flag(w.engine.slots[k])
       == OpenFaults(r.engine.effects, w.engine.slots[k].name) - OpenFaults(w.engine.effects, w.engine.slots[k].name)
  }

  lemma FlagsFollowOn(w: Work, before: Work, after: Work, j: nat, k: nat)
    requires j < |w.engine.slots| && k < |w.engine.slots| && DistinctNames(w.engine.slots)
    requires FlagsFollow(w, before, k) && Reports(before, after, j, w.engine.slots[k].name)
    ensures FlagsFollow(w, after, k)
  {
    if j != k { assert w.engine.slots[j].name != w.engine.slots[k].name; }
  }

  lemma OneMoreReports(w: Work, t: Tick, n: nat, k: nat)
    requires n < |w.engine.slots| <= |t.readings| && k < |w.engine.slots| && DistinctNames(w.engine.slots)
    requires FlagsFollow(w, Processed(w, t, n), k)
    ensures FlagsFollow(w, Processed(w, t, n + 1), k)
  {
    EvaluationReports(Processed(w, t, n), n, t, w.engine.slots[k].name);
    FlagsFollowOn(w, Processed(w, t, n), Evaluated(Processed(w, t, n), n, t), n, k);
  }

  // After any number of rules of a tick, every rule's flag stands where the reported faults say it does.
  lemma {:induction false} FaultsAreReported(w: Work, t: Tick, n: nat, k: nat)
    requires n <= |w.engine.slots| <= |t.readings| && k < |w.engine.slots| && DistinctNames(w.engine.slots)
    ensures FlagsFollow(w, Processed(w, t, n), k)
    decreases n
  {
    if n > 0 {
      FaultsAreReported(w, t, n - 1, k);
      OneMoreReports(w, t, n - 1, k);
    }
  }
}
