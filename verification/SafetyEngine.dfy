// The safety engine of one machine (backend/app/edge/safety/engine.py) and incident
// acknowledgement (backend/app/edge/safety/acknowledgement.py).
module SafetyEngine {
  import opened Prelude
  import opened RuleMachine
  import opened Escalation

  datatype Status = OPEN | ACKNOWLEDGED | RESOLVED

  // fromEngine is false for an operator's own report.
  datatype Incident = Incident(
    machineId: string, operatorId: string, fromEngine: bool, critical: bool, status: Status,
    eventEnd: Option<real>, acknowledgedAt: Option<real>)

  datatype Slot = Slot(
    name: string, config: Config, machine: Machine, degraded: bool, unknown: bool, openId: Option<string>)

  // Sent after the tick commits: clock-driver notifications and WebSocket messages.
  datatype Event = DEGRADED | SENSOR_FAULT | RESTORED | OPENED(id: string) | ESCALATED(id: string) | CLOSED(id: string)
  datatype Effect = NotifyOpened | NotifyClosed | Message(rule: string, event: Event, critical: bool)

  datatype Engine = Engine(
    machineId: string, slots: seq<Slot>, unresolved: set<string>, effects: seq<Effect>, windows: map<Key, seq<real>>)

  type Rows = map<string, Incident>

  // One rule on one tick: its evaluation raises, or it reads the machine. newId is the incident id
  // an opening would use.
  datatype Reading = Raises | Reads(input: Input, newId: string)

  datatype Tick = Tick(ts: real, operatorId: string, readings: seq<Reading>)

  datatype Work = Work(engine: Engine, rows: Rows)

  // --- Pure rules -------------------------------------------------------------------

  // WARNING resolves on clear; CRITICAL only if already acknowledged.
  function StatusAfterHazardClears(critical: bool, status: Status): Status {
    if !critical || status == ACKNOWLEDGED then RESOLVED else status
  }

  datatype AckError = BelongsToAnother | NoTelemetry | Moving

  // speed: the machine speed on its latest live tick, if there is one.
  function Acknowledged(i: Incident, speed: Option<real>, operatorId: string, now: real): Result<Incident, AckError> {
    if i.operatorId != operatorId then Err(BelongsToAnother)
    else if i.status == RESOLVED then Ok(i)
    else if speed.None? then Err(NoTelemetry)
    else if speed.value > 0.0 then Err(Moving)
    else
      var at := if i.acknowledgedAt.None? then Some(now) else i.acknowledgedAt;
      Ok(i.(acknowledgedAt := at, status := if i.eventEnd.Some? then RESOLVED else ACKNOWLEDGED))
  }

  // --- One rule on one tick ---------------------------------------------------------

  function WithSlot(w: Work, k: nat, s: Slot): Work
    requires k < |w.engine.slots|
  {
    w.(engine := w.engine.(slots := w.engine.slots[k := s]))
  }

  function Emitting(w: Work, e: Effect): Work {
    w.(engine := w.engine.(effects := w.engine.effects + [e]))
  }

  function MarkUnresolved(w: Work, id: string): Work {
    Emitting(w.(engine := w.engine.(unresolved := w.engine.unresolved + {id})), NotifyOpened)
  }

  function MarkResolved(w: Work, id: string): Work {
    if id !in w.engine.unresolved then w
    else Emitting(w.(engine := w.engine.(unresolved := w.engine.unresolved - {id})), NotifyClosed)
  }

  // The unknown flag follows the reading; the operator hears of every change.
  function TrackUnknown(w: Work, k: nat, unknown: bool): Work
    requires k < |w.engine.slots|
  {
    var s := w.engine.slots[k];
    if s.unknown == unknown then w
    else Emitting(WithSlot(w, k, s.(unknown := unknown)),
                  Message(s.name, if unknown then SENSOR_FAULT else RESTORED, false))
  }

  function Forced(m: Machine, critical: bool): Machine {
    if m.Active? then Active(m.pendingSince, m.activeSince, critical) else m
  }

  function OpenIncident(w: Work, k: nat, t: Tick, id: string): Work
    requires k < |w.engine.slots| && w.engine.slots[k].machine.Active?
  {
    var s := w.engine.slots[k];
    var (windows, again) := Recorded(DEFAULTS, w.engine.windows, (w.engine.machineId, s.name), t.ts,
                                     s.machine.critical);
    var critical := s.machine.critical || again;
    var stored := w.(engine := w.engine.(windows := windows),
                      rows := w.rows[id := Incident(w.engine.machineId, t.operatorId, true, critical, OPEN, None,
                                                    None)]);
    var linked := WithSlot(stored, k, s.(machine := Forced(s.machine, critical), openId := Some(id)));
    Emitting(MarkUnresolved(linked, id), Message(s.name, OPENED(id), critical))
  }

  function EscalateIncident(w: Work, k: nat, id: string): Work
    requires k < |w.engine.slots|
  {
    var rows := if id in w.rows then w.rows[id := w.rows[id].(critical := true)] else w.rows;
    Emitting(w.(rows := rows), Message(w.engine.slots[k].name, ESCALATED(id), true))
  }

  function CloseIncident(w: Work, k: nat, id: string, ts: real): Work
    requires k < |w.engine.slots|
  {
    var s := w.engine.slots[k];
    var cleared := WithSlot(w, k, s.(openId := None));
    var closed :=
      if id in w.rows then
        var row := w.rows[id].(eventEnd := Some(ts),
                               status := StatusAfterHazardClears(w.rows[id].critical, w.rows[id].status));
        var stored := cleared.(rows := w.rows[id := row]);
        if row.status == RESOLVED then MarkResolved(stored, id) else stored
      else cleared;
    Emitting(closed, Message(s.name, Event.CLOSED(id), if s.machine.Closed? then s.machine.critical else false))
  }

  function Evaluated(w: Work, k: nat, t: Tick): (r: Work)
    requires k < |w.engine.slots| && k < |t.readings|
    ensures |r.engine.slots| == |w.engine.slots|
  {
    var s := w.engine.slots[k];
    if s.degraded then w
    else
      match t.readings[k]
      case Raises => Emitting(WithSlot(w, k, s.(degraded := true)), Message(s.name, DEGRADED, false))
      case Reads(i, id) =>
        var (m, out) := Step(s.config, s.machine, i);
        var read := TrackUnknown(WithSlot(w, k, s.(machine := m)), k, i.Unknown?);
        if out.opens then OpenIncident(read, k, t, id)
        else if out.escalates && s.openId.Some? then EscalateIncident(read, k, s.openId.value)
        else if out.closes && s.openId.Some? then CloseIncident(read, k, s.openId.value, t.ts)
        else read
  }

  // The first n rules, in order.
  function Processed(w: Work, t: Tick, n: nat): (r: Work)
    requires n <= |w.engine.slots| <= |t.readings|
    ensures |r.engine.slots| == |w.engine.slots|
  {
    if n == 0 then w else Evaluated(Processed(w, t, n - 1), n - 1, t)
  }

  // --- Incident lifecycle -----------------------------------------------------------

  // Resolved: ended, and WARNING or acknowledged. Acknowledged: not ended. An engine incident that
  // ended but is still open is CRITICAL and was never acknowledged.
  predicate RowSound(i: Incident) {
    && (i.status == RESOLVED ==> i.eventEnd.Some? && (!i.critical || i.acknowledgedAt.Some?))
    && (i.status == ACKNOWLEDGED ==> i.eventEnd.None? && i.acknowledgedAt.Some?)
    && (i.status == OPEN ==> i.acknowledgedAt.None? && (i.eventEnd.Some? && i.fromEngine ==> i.critical))
  }

  ghost predicate RowsSound(rows: Rows) { forall id :: id in rows ==> RowSound(rows[id]) }

  // The slot holds an incident id exactly while its machine is active or clearing, and the row
  // is this machine's, running, with the machine's severity as its peak.
  ghost predicate SlotLinked(s: Slot, machineId: string, rows: Rows, unresolved: set<string>) {
    && (s.openId.Some? <==> IsOpen(s.machine))
    && (s.openId.Some? ==>
          && s.openId.value in rows && s.openId.value in unresolved
          && var i := rows[s.openId.value];
             i.fromEngine && i.machineId == machineId && i.eventEnd.None? && i.critical == s.machine.critical)
  }

  ghost predicate Linked(e: Engine, rows: Rows) {
    && (forall k :: 0 <= k < |e.slots| ==> SlotLinked(e.slots[k], e.machineId, rows, e.unresolved))
    && (forall j, k :: 0 <= j < k < |e.slots| && e.slots[j].openId.Some? ==> e.slots[j].openId != e.slots[k].openId)
  }

  // Incidents of a machine that an engine opened, that are not resolved and not forgotten.
  function Own(rows: Rows, machineId: string, forgotten: set<string>): set<string> {
    set id | id in rows && rows[id].fromEngine && rows[id].machineId == machineId && rows[id].status != RESOLVED
             && id !in forgotten
  }

  // Ids for new incidents are fresh, and differ from rule to rule.
  ghost predicate FreshIds(t: Tick, rows: Rows, k: nat) {
    && (forall j :: k <= j < |t.readings| && t.readings[j].Reads? ==> t.readings[j].newId !in rows)
    && (forall i, j :: k <= i < j < |t.readings| && t.readings[i].Reads? && t.readings[j].Reads? ==>
          t.readings[i].newId != t.readings[j].newId)
  }

  // --- The driver's view of an effect list ------------------------------------------

  // The open-incident counter after the notifications in the list; it never goes below zero.
  function Applied(count: nat, effects: seq<Effect>): nat {
    if effects == [] then count
    else
      var before := Applied(count, effects[..|effects| - 1]);
      match effects[|effects| - 1]
      case NotifyOpened => before + 1
      case NotifyClosed => if before == 0 then 0 else before - 1
      case Message(_, _, _) => before
  }

  // The clamp at zero is never needed.
  predicate NoClamp(count: nat, effects: seq<Effect>) {
    effects == []
    || (&& NoClamp(count, effects[..|effects| - 1])
        && (effects[|effects| - 1].NotifyClosed? ==> Applied(count, effects[..|effects| - 1]) > 0))
  }

  function Opened(effects: seq<Effect>): nat {
    if effects == [] then 0
    else Opened(effects[..|effects| - 1]) + if effects[|effects| - 1].NotifyOpened? then 1 else 0
  }

  function Shut(effects: seq<Effect>): nat {
    if effects == [] then 0 else Shut(effects[..|effects| - 1]) + if effects[|effects| - 1].NotifyClosed? then 1 else 0
  }

  // The counter is openings minus closings exactly when no closing finds it at zero; otherwise it
  // stays too high from then on.
  lemma {:induction false} ClampExactly(count: nat, effects: seq<Effect>)
    ensures Applied(count, effects) >= count + Opened(effects) - Shut(effects)
    ensures Applied(count, effects) == count + Opened(effects) - Shut(effects) <==> NoClamp(count, effects)
  {
    if effects != [] { ClampExactly(count, effects[..|effects| - 1]); }
  }

  // The pending effects take the counter from count to what the tracked set says.
  ghost predicate Balanced(count: nat, tracked: nat, w: Work) {
    && NoClamp(count, w.engine.effects)
    && Applied(count, w.engine.effects) + tracked == count + |w.engine.unresolved|
  }

  lemma AppliedSnoc(count: nat, effects: seq<Effect>, e: Effect)
    ensures Applied(count, effects + [e]) == (match e
                                              case NotifyOpened => Applied(count, effects) + 1
                                              case NotifyClosed =>
                                                if Applied(count, effects) == 0 then 0
                                                else Applied(count, effects) - 1
                                              case Message(_, _, _) => Applied(count, effects))
    ensures NoClamp(count, effects + [e]) <==>
              NoClamp(count, effects) && (e.NotifyClosed? ==> Applied(count, effects) > 0)
  {
    assert (effects + [e])[..|effects|] == effects;
  }

  // --- Every rule evaluation keeps the links ----------------------------------------

  lemma StepFacts(c: Config, m: Machine, i: Input)
    ensures var (m', out) := Step(c, m, i);
            && (out.opens ==> !IsOpen(m) && m'.Active?)
            && (out.closes ==> IsOpen(m) && m'.Closed?)
            && (out.escalates ==> IsOpen(m) && IsOpen(m') && m'.critical && !out.opens)
            && (!out.opens && !out.closes ==> (IsOpen(m) <==> IsOpen(m')))
            && (!out.escalates && IsOpen(m) && IsOpen(m') ==> m'.critical == m.critical)
  {
  }

  // The slots other than k are linked, and their open ids differ.
  ghost predicate LinkedExcept(e: Engine, rows: Rows, k: nat) {
    && (forall j :: 0 <= j < |e.slots| && j != k ==> SlotLinked(e.slots[j], e.machineId, rows, e.unresolved))
    && (forall i, j :: 0 <= i < j < |e.slots| && i != k && j != k && e.slots[i].openId.Some? ==>
          e.slots[i].openId != e.slots[j].openId)
  }

  // No other slot holds this id.
  ghost predicate OnlySlot(e: Engine, k: nat, id: string) {
    forall j :: 0 <= j < |e.slots| && j != k ==> e.slots[j].openId != Some(id)
  }

  lemma LinkedFromExcept(e: Engine, rows: Rows, k: nat)
    requires k < |e.slots| && LinkedExcept(e, rows, k) && SlotLinked(e.slots[k], e.machineId, rows, e.unresolved)
    requires e.slots[k].openId.Some? ==> OnlySlot(e, k, e.slots[k].openId.value)
    ensures Linked(e, rows)
  {
  }

  // Everything the slots, the tracked set and the rows promise, relative to the ids tracked
  // elsewhere (other) and the ids left behind by earlier runs (forgotten).
  ghost predicate Tracks(w: Work, other: set<string>, forgotten: set<string>) {
    && w.engine.unresolved !! other
    && w.engine.unresolved + other == Own(w.rows, w.engine.machineId, forgotten)
    && forgotten <= w.rows.Keys
  }

  ghost predicate Sound(w: Work, other: set<string>, forgotten: set<string>, count: nat, tracked: nat) {
    && Linked(w.engine, w.rows) && RowsSound(w.rows) && Tracks(w, other, forgotten) && Balanced(count, tracked, w)
  }

  // Rows of other machines, and rows this engine does not hold open, are untouched.
  ghost predicate Frames(before: Rows, after: Rows, machineId: string) {
    && (forall id :: id in before ==> id in after && after[id].machineId == before[id].machineId
                                      && after[id].fromEngine == before[id].fromEngine)
    && (forall id :: id in before && before[id].machineId != machineId ==> after[id] == before[id])
    && (forall id :: id in after && id !in before ==> after[id].machineId == machineId)
  }

  // What OpenIncident leaves, field by field.
  lemma OpeningEffects(w: Work, k: nat, t: Tick, id: string)
    requires k < |w.engine.slots| && w.engine.slots[k].machine.Active?
    ensures var r := OpenIncident(w, k, t, id);
            var s := r.engine.slots[k];
            && r.rows
               == w.rows[id := Incident(w.engine.machineId, t.operatorId, true, s.machine.critical, OPEN, None, None)]
            && r.engine.slots == w.engine.slots[k := s] && s.machine.Active? && s.openId == Some(id)
            && r.engine.unresolved == w.engine.unresolved + {id} && r.engine.machineId == w.engine.machineId
            && r.engine.effects == w.engine.effects + [NotifyOpened] + [Message(s.name, OPENED(id), s.machine.critical)]
  {
  }

  lemma OpeningLinks(w: Work, k: nat, t: Tick, id: string)
    requires k < |w.engine.slots| && w.engine.slots[k].machine.Active?
    requires LinkedExcept(w.engine, w.rows, k) && id !in w.rows
    ensures var r := OpenIncident(w, k, t, id); Linked(r.engine, r.rows)
  {
    var r := OpenIncident(w, k, t, id);
    OpeningEffects(w, k, t, id);
    forall j | 0 <= j < |r.engine.slots| && j != k
      ensures SlotLinked(r.engine.slots[j], r.engine.machineId, r.rows, r.engine.unresolved)
      ensures r.engine.slots[j].openId != Some(id)
    {
      assert SlotLinked(w.engine.slots[j], w.engine.machineId, w.rows, w.engine.unresolved);
    }
    LinkedFromExcept(r.engine, r.rows, k);
  }

  lemma OpeningTracks(w: Work, k: nat, t: Tick, id: string, other: set<string>, forgotten: set<string>)
    requires k < |w.engine.slots| && w.engine.slots[k].machine.Active?
    requires RowsSound(w.rows) && Tracks(w, other, forgotten) && id !in w.rows
    ensures var r := OpenIncident(w, k, t, id); RowsSound(r.rows) && Tracks(r, other, forgotten)
    ensures id !in w.engine.unresolved
  {
    var r := OpenIncident(w, k, t, id);
    OpeningEffects(w, k, t, id);
    var own := Own(w.rows, w.engine.machineId, forgotten);
    assert w.engine.unresolved <= own && other <= own && id !in own;
    assert Own(r.rows, w.engine.machineId, forgotten) == own + {id};
  }

  lemma OpeningBalances(w: Work, k: nat, t: Tick, id: string, count: nat, tracked: nat)
    requires k < |w.engine.slots| && w.engine.slots[k].machine.Active?
    requires Balanced(count, tracked, w) && id !in w.engine.unresolved
    ensures Balanced(count, tracked, OpenIncident(w, k, t, id))
  {
    var s := OpenIncident(w, k, t, id).engine.slots[k];
    OpeningEffects(w, k, t, id);
    AppliedSnoc(count, w.engine.effects, NotifyOpened);
    AppliedSnoc(count, w.engine.effects + [NotifyOpened], Message(s.name, OPENED(id), s.machine.critical));
  }

  lemma NewRowFrames(rows: Rows, id: string, i: Incident)
    requires id !in rows
    ensures Frames(rows, rows[id := i], i.machineId) && rows[id := i].Keys == rows.Keys + {id}
  {
  }

  lemma OpeningIsSound(w: Work, k: nat, t: Tick, id: string, other: set<string>, forgotten: set<string>, count: nat,
                       tracked: nat)
    requires k < |w.engine.slots| && w.engine.slots[k].machine.Active?
    requires LinkedExcept(w.engine, w.rows, k) && RowsSound(w.rows) && Tracks(w, other, forgotten)
    requires Balanced(count, tracked, w) && id !in w.rows
    ensures var r := OpenIncident(w, k, t, id);
            Sound(r, other, forgotten, count, tracked) && Frames(w.rows, r.rows, w.engine.machineId)
            && r.rows.Keys == w.rows.Keys + {id} && r.engine.machineId == w.engine.machineId
  {
    OpeningEffects(w, k, t, id);
    NewRowFrames(w.rows, id, OpenIncident(w, k, t, id).rows[id]);
    OpeningLinks(w, k, t, id);
    OpeningTracks(w, k, t, id, other, forgotten);
    OpeningBalances(w, k, t, id, count, tracked);
  }

  lemma EscalatingLinks(w: Work, k: nat, id: string)
    requires k < |w.engine.slots| && IsOpen(w.engine.slots[k].machine) && w.engine.slots[k].machine.critical
    requires w.engine.slots[k].openId == Some(id) && OnlySlot(w.engine, k, id) && LinkedExcept(w.engine, w.rows, k)
    requires id in w.rows && id in w.engine.unresolved && w.rows[id].fromEngine
    requires w.rows[id].machineId == w.engine.machineId
    requires w.rows[id].eventEnd.None?
    ensures var r := EscalateIncident(w, k, id); Linked(r.engine, r.rows)
  {
    var r := EscalateIncident(w, k, id);
    forall j | 0 <= j < |r.engine.slots| && j != k
      ensures SlotLinked(r.engine.slots[j], r.engine.machineId, r.rows, r.engine.unresolved)
    {
      assert SlotLinked(w.engine.slots[j], w.engine.machineId, w.rows, w.engine.unresolved);
    }
    LinkedFromExcept(r.engine, r.rows, k);
  }

  lemma EscalatingIsSound(w: Work, k: nat, id: string, other: set<string>, forgotten: set<string>, count: nat,
                          tracked: nat)
    requires k < |w.engine.slots| && IsOpen(w.engine.slots[k].machine) && w.engine.slots[k].machine.critical
    requires w.engine.slots[k].openId == Some(id) && OnlySlot(w.engine, k, id)
    requires id in w.rows && id in w.engine.unresolved && w.rows[id].fromEngine
    requires w.rows[id].machineId == w.engine.machineId
    requires w.rows[id].eventEnd.None?
    requires LinkedExcept(w.engine, w.rows, k) && RowsSound(w.rows) && Tracks(w, other, forgotten)
    requires Balanced(count, tracked, w)
    ensures var r := EscalateIncident(w, k, id);
            Sound(r, other, forgotten, count, tracked) && Frames(w.rows, r.rows, w.engine.machineId)
            && r.rows.Keys == w.rows.Keys && r.engine.machineId == w.engine.machineId
  {
    EscalatingLinks(w, k, id);
    EscalatingRows(w.rows, id, w.engine.machineId, forgotten);
    AppliedSnoc(count, w.engine.effects, Message(w.engine.slots[k].name, ESCALATED(id), true));
  }

  // Raising the peak of a running incident.
  lemma EscalatingRows(rows: Rows, id: string, machineId: string, forgotten: set<string>)
    requires id in rows && rows[id].machineId == machineId && rows[id].eventEnd.None? && RowsSound(rows)
    ensures var after := rows[id := rows[id].(critical := true)];
            && RowsSound(after) && Own(after, machineId, forgotten) == Own(rows, machineId, forgotten)
            && Frames(rows, after, machineId) && after.Keys == rows.Keys
  {
  }

  // What CloseIncident leaves.
  lemma ClosingEffects(w: Work, k: nat, id: string, ts: real)
    requires k < |w.engine.slots| && w.engine.slots[k].machine.Closed? && id in w.rows && id in w.engine.unresolved
    ensures var r := CloseIncident(w, k, id, ts);
            var s := w.engine.slots[k];
            var row := w.rows[id].(eventEnd := Some(ts),
                                   status := StatusAfterHazardClears(w.rows[id].critical, w.rows[id].status));
            && r.rows == w.rows[id := row]
            && r.engine.slots == w.engine.slots[k := s.(openId := None)] && r.engine.machineId == w.engine.machineId
            && r.engine.unresolved
               == (if row.status == RESOLVED then w.engine.unresolved - {id} else w.engine.unresolved)
            && r.engine.effects == w.engine.effects + (if row.status == RESOLVED then [NotifyClosed] else [])
                                   + [Message(s.name, Event.CLOSED(id), s.machine.critical)]
  {
  }

  lemma ClosingLinks(w: Work, k: nat, id: string, ts: real)
    requires k < |w.engine.slots| && w.engine.slots[k].machine.Closed? && OnlySlot(w.engine, k, id)
    requires id in w.rows && id in w.engine.unresolved && LinkedExcept(w.engine, w.rows, k)
    ensures var r := CloseIncident(w, k, id, ts); Linked(r.engine, r.rows)
  {
    var r := CloseIncident(w, k, id, ts);
    ClosingEffects(w, k, id, ts);
    forall j | 0 <= j < |r.engine.slots| && j != k
      ensures SlotLinked(r.engine.slots[j], r.engine.machineId, r.rows, r.engine.unresolved)
    {
      assert SlotLinked(w.engine.slots[j], w.engine.machineId, w.rows, w.engine.unresolved);
    }
    LinkedFromExcept(r.engine, r.rows, k);
  }

  lemma ClosingBalances(w: Work, k: nat, id: string, ts: real, count: nat, tracked: nat)
    requires k < |w.engine.slots| && w.engine.slots[k].machine.Closed? && id in w.rows && id in w.engine.unresolved
    requires Balanced(count, tracked, w) && tracked <= count
    ensures Balanced(count, tracked, CloseIncident(w, k, id, ts))
  {
    var r := CloseIncident(w, k, id, ts);
    ClosingEffects(w, k, id, ts);
    var s := w.engine.slots[k];
    var e := Message(s.name, Event.CLOSED(id), s.machine.critical);
    if r.rows[id].status == RESOLVED {
      assert w.engine.unresolved == r.engine.unresolved + {id};
      AppliedSnoc(count, w.engine.effects, NotifyClosed);
      AppliedSnoc(count, w.engine.effects + [NotifyClosed], e);
    } else {
      assert w.engine.effects + [] == w.engine.effects;
      AppliedSnoc(count, w.engine.effects, e);
    }
  }

  lemma ClosingTracks(w: Work, k: nat, id: string, ts: real, other: set<string>, forgotten: set<string>)
    requires k < |w.engine.slots| && w.engine.slots[k].machine.Closed? && id in w.rows && id in w.engine.unresolved
    requires RowsSound(w.rows) && Tracks(w, other, forgotten)
    requires w.rows[id].eventEnd.None?
    ensures var r := CloseIncident(w, k, id, ts); RowsSound(r.rows) && Tracks(r, other, forgotten)
  {
    var r := CloseIncident(w, k, id, ts);
    ClosingEffects(w, k, id, ts);
    var own := Own(w.rows, w.engine.machineId, forgotten);
    assert id in own && id !in other;
    assert Own(r.rows, w.engine.machineId, forgotten) == if r.rows[id].status == RESOLVED then own - {id} else own;
  }

  lemma ClosingIsSound(w: Work, k: nat, id: string, ts: real, other: set<string>, forgotten: set<string>, count: nat,
                       tracked: nat)
    requires k < |w.engine.slots| && w.engine.slots[k].machine.Closed? && OnlySlot(w.engine, k, id)
    requires id in w.rows && id in w.engine.unresolved && w.rows[id].machineId == w.engine.machineId
    requires w.rows[id].eventEnd.None?
    requires LinkedExcept(w.engine, w.rows, k) && RowsSound(w.rows) && Tracks(w, other, forgotten)
    requires Balanced(count, tracked, w) && tracked <= count
    ensures var r := CloseIncident(w, k, id, ts);
            Sound(r, other, forgotten, count, tracked) && Frames(w.rows, r.rows, w.engine.machineId)
            && r.rows.Keys == w.rows.Keys && r.engine.machineId == w.engine.machineId
  {
    ClosingEffects(w, k, id, ts);
    ClosingLinks(w, k, id, ts);
    ClosingTracks(w, k, id, ts, other, forgotten);
    ClosingBalances(w, k, id, ts, count, tracked);
  }

  // The work after reading the machine, before any incident effect.
  function Read(w: Work, k: nat, m: Machine, unknown: bool): Work
    requires k < |w.engine.slots|
  {
    TrackUnknown(WithSlot(w, k, w.engine.slots[k].(machine := m)), k, unknown)
  }

  lemma ReadingEffects(w: Work, k: nat, m: Machine, unknown: bool)
    requires k < |w.engine.slots|
    ensures var r := Read(w, k, m, unknown);
            && r.rows == w.rows && r.engine.unresolved == w.engine.unresolved
            && r.engine.machineId == w.engine.machineId
            && r.engine.slots == w.engine.slots[k := w.engine.slots[k].(machine := m, unknown := unknown)]
  {
    var s := w.engine.slots[k];
    assert s.(machine := m).unknown == s.unknown;
  }

  lemma ReadingLinks(w: Work, k: nat, m: Machine, unknown: bool)
    requires k < |w.engine.slots| && Linked(w.engine, w.rows)
    ensures var r := Read(w, k, m, unknown);
            && LinkedExcept(r.engine, r.rows, k)
            && (r.engine.slots[k].openId.Some? ==> OnlySlot(r.engine, k, r.engine.slots[k].openId.value))
  {
    ReadingEffects(w, k, m, unknown);
    var r := Read(w, k, m, unknown);
    forall j | 0 <= j < |r.engine.slots| && j != k
      ensures SlotLinked(r.engine.slots[j], r.engine.machineId, r.rows, r.engine.unresolved)
    {
      assert SlotLinked(w.engine.slots[j], w.engine.machineId, w.rows, w.engine.unresolved);
    }
  }

  lemma ReadingBalances(w: Work, k: nat, m: Machine, unknown: bool, count: nat, tracked: nat)
    requires k < |w.engine.slots| && Balanced(count, tracked, w)
    ensures Balanced(count, tracked, Read(w, k, m, unknown))
  {
    ReadingEffects(w, k, m, unknown);
    var s := w.engine.slots[k];
    AppliedSnoc(count, w.engine.effects, Message(s.name, if unknown then SENSOR_FAULT else RESTORED, false));
  }

  lemma ReadingKeeps(w: Work, k: nat, m: Machine, unknown: bool, other: set<string>, forgotten: set<string>,
                     count: nat, tracked: nat)
    requires k < |w.engine.slots| && Sound(w, other, forgotten, count, tracked)
    ensures var r := Read(w, k, m, unknown);
            && r.rows == w.rows && r.engine.unresolved == w.engine.unresolved
            && r.engine.machineId == w.engine.machineId
            && r.engine.slots == w.engine.slots[k := w.engine.slots[k].(machine := m, unknown := unknown)]
            && LinkedExcept(r.engine, r.rows, k) && Tracks(r, other, forgotten) && Balanced(count, tracked, r)
            && (r.engine.slots[k].openId.Some? ==> OnlySlot(r.engine, k, r.engine.slots[k].openId.value))
  {
    ReadingEffects(w, k, m, unknown);
    ReadingLinks(w, k, m, unknown);
    ReadingBalances(w, k, m, unknown, count, tracked);
  }

  lemma QuietIsSound(w: Work, k: nat, m: Machine, unknown: bool, other: set<string>, forgotten: set<string>,
                     count: nat, tracked: nat)
    requires k < |w.engine.slots| && Sound(w, other, forgotten, count, tracked)
    requires (IsOpen(m) <==> IsOpen(w.engine.slots[k].machine))
    requires IsOpen(m) ==> m.critical == w.engine.slots[k].machine.critical
    ensures Sound(Read(w, k, m, unknown), other, forgotten, count, tracked)
  {
    ReadingKeeps(w, k, m, unknown, other, forgotten, count, tracked);
    var r := Read(w, k, m, unknown);
    assert SlotLinked(w.engine.slots[k], w.engine.machineId, w.rows, w.engine.unresolved);
    LinkedFromExcept(r.engine, r.rows, k);
  }

  // What one rule evaluation may do to the rows.
  ghost predicate RowsFollow(w: Work, r: Work, k: nat, t: Tick)
    requires k < |t.readings|
  {
    && r.engine.machineId == w.engine.machineId && |r.engine.slots| == |w.engine.slots|
    && Frames(w.rows, r.rows, w.engine.machineId)
    && (r.rows.Keys == w.rows.Keys || (t.readings[k].Reads? && r.rows.Keys == w.rows.Keys + {t.readings[k].newId}))
  }

  lemma EvaluationIsSound(w: Work, k: nat, t: Tick, other: set<string>, forgotten: set<string>, count: nat,
                          tracked: nat)
    requires k < |w.engine.slots| && k < |t.readings| && Sound(w, other, forgotten, count, tracked) && tracked <= count
    requires t.readings[k].Reads? ==> t.readings[k].newId !in w.rows
    ensures Sound(Evaluated(w, k, t), other, forgotten, count, tracked) && RowsFollow(w, Evaluated(w, k, t), k, t)
  {
    var s := w.engine.slots[k];
    assert SlotLinked(s, w.engine.machineId, w.rows, w.engine.unresolved);
    if !s.degraded {
      match t.readings[k]
      case Raises => RaisingIsSound(w, k, other, forgotten, count, tracked);
      case Reads(i, id) =>
        var (m, out) := Step(s.config, s.machine, i);
        StepFacts(s.config, s.machine, i);
        var read := Read(w, k, m, i.Unknown?);
        ReadingKeeps(w, k, m, i.Unknown?, other, forgotten, count, tracked);
        if out.opens {
          OpeningIsSound(read, k, t, id, other, forgotten, count, tracked);
        } else if out.escalates {
          EscalatingIsSound(read, k, s.openId.value, other, forgotten, count, tracked);
        } else if out.closes {
          ClosingIsSound(read, k, s.openId.value, t.ts, other, forgotten, count, tracked);
        } else {
          QuietIsSound(w, k, m, i.Unknown?, other, forgotten, count, tracked);
        }
    }
  }

  // A rule that raises is switched off with its machine and incident as they were.
  lemma RaisingIsSound(w: Work, k: nat, other: set<string>, forgotten: set<string>, count: nat, tracked: nat)
    requires k < |w.engine.slots| && Sound(w, other, forgotten, count, tracked)
    ensures var s := w.engine.slots[k];
            Sound(Emitting(WithSlot(w, k, s.(degraded := true)), Message(s.name, DEGRADED, false)), other, forgotten,
                  count, tracked)
  {
    var s := w.engine.slots[k];
    var r := Emitting(WithSlot(w, k, s.(degraded := true)), Message(s.name, DEGRADED, false));
    AppliedSnoc(count, w.engine.effects, Message(s.name, DEGRADED, false));
    forall j | 0 <= j < |r.engine.slots|
      ensures SlotLinked(r.engine.slots[j], r.engine.machineId, r.rows, r.engine.unresolved)
    {
      assert SlotLinked(w.engine.slots[j], w.engine.machineId, w.rows, w.engine.unresolved);
    }
  }

  // Ids the first n rules may have used.
  ghost predicate UsedOnly(w: Work, r: Work, t: Tick, n: nat)
    requires n <= |t.readings|
  {
    forall id :: id in r.rows ==>
      id in w.rows || exists j :: 0 <= j < n && t.readings[j].Reads? && t.readings[j].newId == id
  }

  lemma FramesChain(a: Rows, b: Rows, c: Rows, machineId: string)
    requires Frames(a, b, machineId) && Frames(b, c, machineId)
    ensures Frames(a, c, machineId)
  {
  }

  lemma NextIdIsFresh(w: Work, r: Work, t: Tick, n: nat)
    requires n < |t.readings| && FreshIds(t, w.rows, 0) && UsedOnly(w, r, t, n) && t.readings[n].Reads?
    ensures t.readings[n].newId !in r.rows
  {
  }

  lemma UsedOneMore(w: Work, r: Work, r': Work, t: Tick, n: nat)
    requires n < |t.readings| && UsedOnly(w, r, t, n)
    requires r'.rows.Keys <= r.rows.Keys + if t.readings[n].Reads? then {t.readings[n].newId} else {}
    ensures UsedOnly(w, r', t, n + 1)
  {
    forall id | id in r'.rows
      ensures id in w.rows || exists j :: 0 <= j < n + 1 && t.readings[j].Reads? && t.readings[j].newId == id
    {
      if id in r.rows {
        if id !in w.rows {
          var j :| 0 <= j < n && t.readings[j].Reads? && t.readings[j].newId == id;
        }
      } else {
        assert t.readings[n].newId == id;
      }
    }
  }

  // A whole tick keeps everything, whatever each rule reads or raises.
  lemma {:induction false} ProcessingIsSound(w: Work, t: Tick, n: nat, other: set<string>, forgotten: set<string>,
                                             count: nat, tracked: nat)
    requires n <= |w.engine.slots| <= |t.readings| && Sound(w, other, forgotten, count, tracked) && tracked <= count
    requires FreshIds(t, w.rows, 0)
    ensures Sound(Processed(w, t, n), other, forgotten, count, tracked)
    ensures Processed(w, t, n).engine.machineId == w.engine.machineId
    ensures Frames(w.rows, Processed(w, t, n).rows, w.engine.machineId) && UsedOnly(w, Processed(w, t, n), t, n)
  {
    if n > 0 {
      ProcessingIsSound(w, t, n - 1, other, forgotten, count, tracked);
      ProcessingOneMore(w, t, n - 1, other, forgotten, count, tracked);
    }
  }

  lemma ProcessingOneMore(w: Work, t: Tick, n: nat, other: set<string>, forgotten: set<string>, count: nat,
                          tracked: nat)
    requires n < |w.engine.slots| <= |t.readings| && tracked <= count && FreshIds(t, w.rows, 0)
    requires var r := Processed(w, t, n);
             && Sound(r, other, forgotten, count, tracked) && r.engine.machineId == w.engine.machineId
             && Frames(w.rows, r.rows, w.engine.machineId) && UsedOnly(w, r, t, n)
    ensures var r := Processed(w, t, n + 1);
             && Sound(r, other, forgotten, count, tracked) && r.engine.machineId == w.engine.machineId
             && Frames(w.rows, r.rows, w.engine.machineId) && UsedOnly(w, r, t, n + 1)
  {
    var r := Processed(w, t, n);
    if t.readings[n].Reads? { NextIdIsFresh(w, r, t, n); }
    EvaluationIsSound(r, n, t, other, forgotten, count, tracked);
    FramesChain(w.rows, r.rows, Evaluated(r, n, t).rows, w.engine.machineId);
    UsedOneMore(w, r, Evaluated(r, n, t), t, n);
  }

  // --- The objects ------------------------------------------------------------------

  // The incident table inside the tick's transaction.
  class IncidentTable {
    var rows: Rows
  }

  class ClockDriver {
    var selectedSpeed: int
    var openIncidentCount: nat

    constructor ()
      ensures selectedSpeed == 1 && openIncidentCount == 0
    {
      selectedSpeed, openIncidentCount := 1, 0;
    }

    method SetSpeed(speed: int)
      modifies this`selectedSpeed
      ensures selectedSpeed == if speed < 1 then 1 else speed
    {
      selectedSpeed := if speed < 1 then 1 else speed;
    }

    method NotifyIncidentOpened()
      modifies this`openIncidentCount
      ensures openIncidentCount == old(openIncidentCount) + 1
    {
      openIncidentCount := openIncidentCount + 1;
    }

    method NotifyIncidentClosed()
      modifies this`openIncidentCount
      ensures openIncidentCount == if old(openIncidentCount) == 0 then 0 else old(openIncidentCount) - 1
    {
      openIncidentCount := if openIncidentCount == 0 then 0 else openIncidentCount - 1;
    }

    method ResetIncidents()
      modifies this`openIncidentCount
      ensures openIncidentCount == 0
    {
      openIncidentCount := 0;
    }

    function EffectiveSpeed(): int
      reads this
    {
      if openIncidentCount > 0 then 1 else selectedSpeed
    }
  }

  function Messages(effects: seq<Effect>): seq<Effect> {
    if effects == [] then []
    else Messages(effects[..|effects| - 1]) + if effects[|effects| - 1].Message? then [effects[|effects| - 1]] else []
  }

  // All state a tick can change, except the effects.
  datatype Checkpoint = Checkpoint(slots: seq<Slot>, unresolved: set<string>, windows: map<Key, seq<real>>)

  function Saved(e: Engine): Checkpoint {
    Checkpoint(e.slots, e.unresolved, e.windows)
  }

  function Restored(e: Engine, saved: Checkpoint): Engine {
    e.(slots := saved.slots, unresolved := saved.unresolved, windows := saved.windows, effects := [])
  }

  lemma EvaluationKeepsMachine(w: Work, k: nat, t: Tick)
    requires k < |w.engine.slots| && k < |t.readings|
    ensures Evaluated(w, k, t).engine.machineId == w.engine.machineId
  {
  }

  lemma OneMoreKeepsMachine(w: Work, t: Tick, n: nat, machineId: string)
    requires n < |w.engine.slots| <= |t.readings| && Processed(w, t, n).engine.machineId == machineId
    ensures Processed(w, t, n + 1).engine.machineId == machineId
  {
    EvaluationKeepsMachine(Processed(w, t, n), n, t);
  }

  lemma {:induction false} TickKeepsMachine(w: Work, t: Tick, n: nat)
    requires n <= |w.engine.slots| <= |t.readings|
    ensures Processed(w, t, n).engine.machineId == w.engine.machineId
  {
    if n > 0 {
      TickKeepsMachine(w, t, n - 1);
      OneMoreKeepsMachine(w, t, n - 1, w.engine.machineId);
    }
  }

  // Wherever in the tick it fails, restoring the checkpoint gives the engine of before the tick.
  lemma RestoringUndoesTick(w: Work, t: Tick, n: nat)
    requires n <= |w.engine.slots| <= |t.readings| && w.engine.effects == []
    ensures Restored(Processed(w, t, n).engine, Saved(w.engine)) == w.engine
  {
    TickKeepsMachine(w, t, n);
  }

  class SafetyEngine {
    const machineId: string
    var slots: seq<Slot>
    var unresolved: set<string>
    var effects: seq<Effect>
    var windows: map<Key, seq<real>>

    constructor (machineId: string, slots: seq<Slot>)
      ensures State() == Engine(machineId, slots, {}, [], map[])
    {
      this.machineId, this.slots := machineId, slots;
      unresolved, effects, windows := {}, [], map[];
    }

    ghost function State(): Engine
      reads this
    {
      Engine(machineId, slots, unresolved, effects, windows)
    }

    method SaveCheckpoint() returns (saved: Checkpoint)
      ensures saved == Saved(State())
    {
      saved := Checkpoint(slots, unresolved, windows);
    }

    method Restore(saved: Checkpoint)
      modifies this
      ensures State() == Restored(old(State()), saved)
    {
      slots, unresolved, windows := saved.slots, saved.unresolved, saved.windows;
      effects := [];
    }

    // Send the effects of a committed tick, in order.
    method FlushEffects(driver: ClockDriver) returns (sent: seq<Effect>)
      modifies this`effects, driver`openIncidentCount
      ensures effects == [] && sent == Messages(old(effects))
      ensures driver.openIncidentCount == Applied(old(driver.openIncidentCount), old(effects))
    {
      var queue := effects;
      effects := [];
      sent := [];
      for i := 0 to |queue|
        invariant sent == Messages(queue[..i]) && effects == []
        invariant driver.openIncidentCount == Applied(old(driver.openIncidentCount), queue[..i])
      {
        assert queue[..i + 1][..i] == queue[..i];
        match queue[i] {
          case NotifyOpened => driver.NotifyIncidentOpened();
          case NotifyClosed => driver.NotifyIncidentClosed();
          case Message(_, _, _) => sent := sent + [queue[i]];
        }
      }
      assert queue[..|queue|] == queue;
    }

    method AfterCommit(e: Effect)
      modifies this`effects
      ensures effects == old(effects) + [e]
    {
      effects := effects + [e];
    }

    method EvaluateRule(k: nat, t: Tick, session: IncidentTable)
      requires k < |slots| && k < |t.readings|
      modifies this, session
      ensures Work(State(), session.rows) == Evaluated(Work(old(State()), old(session.rows)), k, t)
    {
      if slots[k].degraded {
        return;
      }
      if t.readings[k].Raises? {
        slots := slots[k := slots[k].(degraded := true)];
        AfterCommit(Message(slots[k].name, DEGRADED, false));
        return;
      }
      var reading, id := t.readings[k].input, t.readings[k].newId;
      ghost var w := Work(State(), session.rows);
      var (machine, result) := Step(slots[k].config, slots[k].machine, reading);
      ghost var read := Read(w, k, machine, reading.Unknown?);
      slots := slots[k := slots[k].(machine := machine)];
      TrackUnknownFlag(k, reading.Unknown?);
      StepFacts(w.engine.slots[k].config, w.engine.slots[k].machine, reading);
      if result.opens {
        WriteIncident(k, t, id, session);
      } else if result.escalates && slots[k].openId.Some? {
        var escalated := slots[k].openId.value;
        if escalated in session.rows {
          session.rows := session.rows[escalated := session.rows[escalated].(critical := true)];
        }
        AfterCommit(Message(slots[k].name, ESCALATED(escalated), true));
      } else if result.closes && slots[k].openId.Some? {
        EndIncident(k, slots[k].openId.value, t.ts, session);
      }
    }

    method TrackUnknownFlag(k: nat, unknown: bool)
      requires k < |slots|
      modifies this`slots, this`effects
      ensures State() == TrackUnknown(Work(old(State()), map[]), k, unknown).engine
    {
      if slots[k].unknown == unknown {
        return;
      }
      slots := slots[k := slots[k].(unknown := unknown)];
      AfterCommit(Message(slots[k].name, if unknown then SENSOR_FAULT else RESTORED, false));
    }

    method WriteIncident(k: nat, t: Tick, id: string, session: IncidentTable)
      requires k < |slots| && slots[k].machine.Active?
      modifies this, session
      ensures Work(State(), session.rows) == OpenIncident(Work(old(State()), old(session.rows)), k, t, id)
    {
      var critical := slots[k].machine.critical;
      var (recent, again) := Recorded(DEFAULTS, windows, (machineId, slots[k].name), t.ts, critical);
      windows := recent;
      if again { critical := true; }
      session.rows := session.rows[id := Incident(machineId, t.operatorId, true, critical, OPEN, None, None)];
      slots := slots[k := slots[k].(machine := Forced(slots[k].machine, critical), openId := Some(id))];
      unresolved := unresolved + {id};
      AfterCommit(NotifyOpened);
      AfterCommit(Message(slots[k].name, OPENED(id), critical));
    }

    method EndIncident(k: nat, id: string, ts: real, session: IncidentTable)
      requires k < |slots|
      modifies this, session
      ensures Work(State(), session.rows) == CloseIncident(Work(old(State()), old(session.rows)), k, id, ts)
    {
      var status := None;
      if id in session.rows {
        var row := session.rows[id];
        row := row.(eventEnd := Some(ts), status := StatusAfterHazardClears(row.critical, row.status));
        session.rows := session.rows[id := row];
        status := Some(row.status);
      }
      slots := slots[k := slots[k].(openId := None)];
      if status == Some(RESOLVED) { Resolve(id); }
      AfterCommit(Message(slots[k].name, Event.CLOSED(id),
                          if slots[k].machine.Closed? then slots[k].machine.critical else false));
    }

    // _mark_resolved
    method Resolve(id: string)
      modifies this`unresolved, this`effects
      ensures State() == MarkResolved(Work(old(State()), map[]), id).engine
    {
      if id !in unresolved {
        return;
      }
      unresolved := unresolved - {id};
      AfterCommit(NotifyClosed);
    }

    // Rule k, after the rules before it.
    method EvaluateNext(k: nat, t: Tick, session: IncidentTable, ghost w: Work)
      requires k < |slots| == |w.engine.slots| <= |t.readings| && Work(State(), session.rows) == Processed(w, t, k)
      modifies this, session
      ensures Work(State(), session.rows) == Processed(w, t, k + 1)
    {
      ghost var before := Work(State(), session.rows);
      EvaluateRule(k, t, session);
      assert Processed(w, t, k + 1) == Evaluated(before, k, t);
    }

    method ProcessTick(t: Tick, session: IncidentTable)
      requires |slots| <= |t.readings|
      modifies this, session
      ensures Work(State(), session.rows) == Processed(Work(old(State()), old(session.rows)), t, |old(slots)|)
    {
      ghost var w := Work(State(), session.rows);
      for k := 0 to |slots|
        invariant |slots| == |w.engine.slots|
        invariant Work(State(), session.rows) == Processed(w, t, k)
      {
        EvaluateNext(k, t, session, w);
        assert |Processed(w, t, k + 1).engine.slots| == |w.engine.slots|;
      }
    }

    // One tick as one transaction: all of it, or nothing.
    method RunTick(t: Tick, session: IncidentTable, driver: ClockDriver, commits: bool) returns (sent: seq<Effect>)
      requires |slots| <= |t.readings| && effects == []
      modifies this, session, driver`openIncidentCount
      ensures effects == []
      ensures !commits ==> State() == old(State()) && session.rows == old(session.rows) && sent == []
                           && driver.openIncidentCount == old(driver.openIncidentCount)
      ensures commits ==>
                var r := Processed(Work(old(State()), old(session.rows)), t, |old(slots)|);
                && State() == r.engine.(effects := []) && session.rows == r.rows && sent == Messages(r.engine.effects)
                && driver.openIncidentCount == Applied(old(driver.openIncidentCount), r.engine.effects)
    {
      var saved := SaveCheckpoint();
      var stored := session.rows;
      ProcessTick(t, session);
      if commits {
        sent := FlushEffects(driver);
      } else {
        session.rows := stored;
        Restore(saved);
        sent := [];
      }
    }

    // After an acknowledgement resolved an incident.
    method IncidentResolved(id: string, driver: ClockDriver)
      requires effects == []
      modifies this, driver`openIncidentCount
      ensures unresolved == old(unresolved) - {id} && slots == old(slots) && windows == old(windows) && effects == []
      ensures driver.openIncidentCount == if id in old(unresolved) && old(driver.openIncidentCount) > 0
                                          then old(driver.openIncidentCount) - 1 else old(driver.openIncidentCount)
    {
      AppliedSnoc(driver.openIncidentCount, [], NotifyClosed);
      Resolve(id);
      assert [] + [NotifyClosed] == [NotifyClosed];
      var _ := FlushEffects(driver);
    }

    // Hand the tracked incidents to the engine of the machine's next shift.
    method ReleaseUnresolved() returns (ids: set<string>)
      modifies this`unresolved
      ensures ids == old(unresolved) && unresolved == {}
    {
      ids := unresolved;
      unresolved := {};
    }

    method AdoptUnresolved(ids: set<string>)
      modifies this`unresolved
      ensures unresolved == old(unresolved) + ids
    {
      unresolved := unresolved + ids;
    }
  }
}
