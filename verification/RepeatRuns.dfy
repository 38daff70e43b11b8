// Repeat escalation over the runs of an engine: what severity an incident opens with
// (backend/app/edge/safety/engine.py and escalation.py).
module RepeatRuns {
  import opened Prelude
  import opened RuleMachine
  import opened Escalation
  import opened SafetyEngine

  // Rule k opens an incident on the tick; the machine's own severity of it.
  predicate Opens(w: Work, k: nat, t: Tick)
    requires k < |w.engine.slots| && k < |t.readings|
  {
    var s := w.engine.slots[k];
    !s.degraded && t.readings[k].Reads? && Step(s.config, s.machine, t.readings[k].input).1.opens
  }

  predicate OpensCritical(w: Work, k: nat, t: Tick)
    requires k < |w.engine.slots| && k < |t.readings| && Opens(w, k, t)
  {
    var s := w.engine.slots[k];
    var m := Step(s.config, s.machine, t.readings[k].input).0;
    m.Active? && m.critical
  }

  // Rule k opens a WARNING of the named rule.
  predicate Warns(w: Work, k: nat, t: Tick, rule: string)
    requires k < |w.engine.slots| && k < |t.readings|
  {
    Opens(w, k, t) && !OpensCritical(w, k, t) && w.engine.slots[k].name == rule
  }

  // The list, with this time added if the rule warns.
  function Noted(log: seq<real>, ts: real, warns: bool): seq<real> { if warns then log + [ts] else log }

  // The list with the times of the rule's WARNING openings among the first n rules of a tick added.
  function Warned(log: seq<real>, w: Work, t: Tick, n: nat, rule: string): seq<real>
    requires n <= |w.engine.slots| <= |t.readings|
  {
    if n == 0 then log
    else Noted(Warned(log, w, t, n - 1, rule), t.ts, Warns(Processed(w, t, n - 1), n - 1, t, rule))
  }

  // A committed tick, its effects sent.
  function Committed(w: Work, t: Tick): (r: Work)
    requires |w.engine.slots| <= |t.readings|
    ensures |r.engine.slots| == |w.engine.slots|
  {
    var r := Processed(w, t, |w.engine.slots|);
    r.(engine := r.engine.(effects := []))
  }

  ghost predicate Fit(w: Work, ticks: seq<Tick>) {
    forall i :: 0 <= i < |ticks| ==> |w.engine.slots| <= |ticks[i].readings|
  }

  ghost function After(w: Work, ticks: seq<Tick>): (r: Work)
    requires Fit(w, ticks)
    ensures |r.engine.slots| == |w.engine.slots|
  {
    if ticks == [] then w else Committed(After(w, ticks[..|ticks| - 1]), ticks[|ticks| - 1])
  }

  // The times of the rule's WARNING openings over a run; ticks that roll back leave none.
  ghost function Warnings(w: Work, ticks: seq<Tick>, rule: string): seq<real>
    requires Fit(w, ticks)
  {
    if ticks == [] then []
    else
      var before := After(w, ticks[..|ticks| - 1]);
      Warned(Warnings(w, ticks[..|ticks| - 1], rule), before, ticks[|ticks| - 1], |before.engine.slots|, rule)
  }

  ghost predicate Timely(ticks: seq<Tick>) {
    forall i, j :: 0 <= i < j < |ticks| ==> ticks[i].ts <= ticks[j].ts
  }

  // The engine's window of a rule.
  function WindowOf(w: Work, rule: string): seq<real> {
    At(w.engine.windows, (w.engine.machineId, rule))
  }

  ghost predicate Rising(times: seq<real>) {
    forall i, j :: 0 <= i < j < |times| ==> times[i] <= times[j]
  }

  // The window is the list of the rule's WARNINGs less those too old for the newest; none is later
  // than now.
  ghost predicate Remembers(window: seq<real>, log: seq<real>, now: real) {
    && |window| <= |log| && window == log[|log| - |window|..] && Rising(log)
    && (forall i :: 0 <= i < |log| - |window| ==> log[i] < log[|log| - 1] - DEFAULTS.windowSeconds)
    && (log != [] ==> log[|log| - 1] <= now)
  }

  lemma {:induction false} RisingIsAscending(times: seq<real>)
    requires Rising(times)
    ensures Ascending(times)
  {
    if |times| >= 2 { RisingIsAscending(times[..|times| - 1]); }
  }

  lemma RisingSnoc(log: seq<real>, ts: real)
    requires Rising(log) && (log != [] ==> log[|log| - 1] <= ts)
    ensures Rising(log + [ts])
  {
    forall i, j | 0 <= i < j < |log + [ts]| ensures (log + [ts])[i] <= (log + [ts])[j] {
      if j == |log| && i < |log| - 1 { assert log[i] <= log[|log| - 1]; }
    }
  }

  lemma RemembersTrimmed(window: seq<real>, log: seq<real>, ts: real)
    requires Remembers(window, log, ts)
    ensures IsTrimmed(window, log, DEFAULTS.windowSeconds) && Ascending(log + [ts])
  {
    RisingSnoc(log, ts);
    RisingIsAscending(log + [ts]);
  }

  function Kept(window: seq<real>, ts: real, warns: bool): seq<real> {
    if warns then Recent(window, ts - DEFAULTS.windowSeconds) + [ts] else window
  }

  lemma NewestRemembers(window: seq<real>, log: seq<real>, ts: real)
    requires IsTrimmed(window, log + [ts], DEFAULTS.windowSeconds) && Rising(log + [ts])
    ensures Remembers(window, log + [ts], ts)
  {
    RisingIsAscending(log + [ts]);
  }

  lemma RecordingRemembers(window: seq<real>, log: seq<real>, ts: real, warns: bool)
    requires Remembers(window, log, ts)
    ensures Remembers(Kept(window, ts, warns), Noted(log, ts, warns), ts)
  {
    if warns {
      RisingSnoc(log, ts);
      RemembersTrimmed(window, log, ts);
      RecordingTrims(window, log, ts, DEFAULTS.windowSeconds);
      NewestRemembers(Recent(window, ts - DEFAULTS.windowSeconds) + [ts], log, ts);
    }
  }

  // The windows after rule k opened an incident.
  function Opened(w: Work, k: nat, t: Tick): (map<Key, seq<real>>, bool)
    requires k < |w.engine.slots| && k < |t.readings| && Opens(w, k, t)
  {
    Recorded(DEFAULTS, w.engine.windows, (w.engine.machineId, w.engine.slots[k].name), t.ts, OpensCritical(w, k, t))
  }

  lemma OpeningRecords(w: Work, k: nat, t: Tick)
    requires k < |w.engine.slots| && k < |t.readings| && Opens(w, k, t)
    ensures Evaluated(w, k, t).engine.windows == Opened(w, k, t).0
  {
    StepFacts(w.engine.slots[k].config, w.engine.slots[k].machine, t.readings[k].input);
  }

  lemma OthersRecordNothing(w: Work, k: nat, t: Tick)
    requires k < |w.engine.slots| && k < |t.readings| && !Opens(w, k, t)
    ensures Evaluated(w, k, t).engine.windows == w.engine.windows
  {
  }

  // A rule records exactly its WARNING openings.
  lemma EvaluationRecords(w: Work, k: nat, t: Tick, rule: string)
    requires k < |w.engine.slots| && k < |t.readings| && rule in DEFAULTS.appliesTo
    ensures WindowOf(Evaluated(w, k, t), rule) == Kept(WindowOf(w, rule), t.ts, Warns(w, k, t, rule))
  {
    EvaluationKeepsMachine(w, k, t);
    if Opens(w, k, t) { OpeningRecords(w, k, t); } else { OthersRecordNothing(w, k, t); }
  }

  lemma StepRemembers(w: Work, k: nat, t: Tick, rule: string, log: seq<real>)
    requires k < |w.engine.slots| && k < |t.readings| && rule in DEFAULTS.appliesTo
    requires Remembers(WindowOf(w, rule), log, t.ts)
    ensures Remembers(WindowOf(Evaluated(w, k, t), rule), Noted(log, t.ts, Warns(w, k, t, rule)), t.ts)
  {
    EvaluationRecords(w, k, t, rule);
    RecordingRemembers(WindowOf(w, rule), log, t.ts, Warns(w, k, t, rule));
  }

  // The window is in step with the openings after the first n rules of a tick.
  ghost predicate InStep(w: Work, t: Tick, n: nat, rule: string, log: seq<real>)
    requires n <= |w.engine.slots| <= |t.readings|
  {
    Remembers(WindowOf(Processed(w, t, n), rule), Warned(log, w, t, n, rule), t.ts)
  }

  lemma StartsInStep(w: Work, t: Tick, rule: string, log: seq<real>)
    requires |w.engine.slots| <= |t.readings| && Remembers(WindowOf(w, rule), log, t.ts)
    ensures InStep(w, t, 0, rule, log)
  {
  }

  lemma OneMoreRemembers(w: Work, t: Tick, n: nat, rule: string, log: seq<real>)
    requires n < |w.engine.slots| <= |t.readings| && rule in DEFAULTS.appliesTo && InStep(w, t, n, rule, log)
    ensures InStep(w, t, n + 1, rule, log)
  {
    StepRemembers(Processed(w, t, n), n, t, rule, Warned(log, w, t, n, rule));
  }

  lemma {:induction false} StaysInStep(w: Work, t: Tick, n: nat, rule: string, log: seq<real>)
    requires n <= |w.engine.slots| <= |t.readings| && rule in DEFAULTS.appliesTo && InStep(w, t, 0, rule, log)
    ensures InStep(w, t, n, rule, log)
    decreases n
  {
    if n > 0 {
      StaysInStep(w, t, n - 1, rule, log);
      OneMoreRemembers(w, t, n - 1, rule, log);
    }
  }

  lemma TickRemembers(w: Work, t: Tick, n: nat, rule: string, log: seq<real>)
    requires n <= |w.engine.slots| <= |t.readings| && rule in DEFAULTS.appliesTo
    requires Remembers(WindowOf(w, rule), log, t.ts)
    ensures InStep(w, t, n, rule, log)
  {
    StartsInStep(w, t, rule, log);
    StaysInStep(w, t, n, rule, log);
  }

  lemma CommittedRemembers(w: Work, t: Tick, rule: string, log: seq<real>)
    requires |w.engine.slots| <= |t.readings| && rule in DEFAULTS.appliesTo && Remembers(WindowOf(w, rule), log, t.ts)
    ensures Remembers(WindowOf(Committed(w, t), rule), Warned(log, w, t, |w.engine.slots|, rule), t.ts)
  {
    TickRemembers(w, t, |w.engine.slots|, rule, log);
  }

  lemma RemembersLonger(window: seq<real>, log: seq<real>, now: real, later: real)
    requires Remembers(window, log, now) && now <= later
    ensures Remembers(window, log, later)
  {
  }

  // A run of an engine that starts with nothing recorded, up to now.
  lemma {:induction false} RunRemembers(w: Work, ticks: seq<Tick>, rule: string, now: real)
    requires w.engine.windows == map[] && Fit(w, ticks) && Timely(ticks) && rule in DEFAULTS.appliesTo
    requires ticks != [] ==> ticks[|ticks| - 1].ts <= now
    ensures Remembers(WindowOf(After(w, ticks), rule), Warnings(w, ticks, rule), now)
  {
    if ticks != [] {
      var before, last := ticks[..|ticks| - 1], ticks[|ticks| - 1];
      RunRemembers(w, before, rule, last.ts);
      CommittedRemembers(After(w, before), last, rule, Warnings(w, before, rule));
      RemembersLonger(WindowOf(After(w, ticks), rule), Warnings(w, ticks, rule), last.ts, now);
    }
  }

  // The stored severity of an opening: the machine's, raised by the tracker.
  lemma OpeningSeverity(w: Work, k: nat, t: Tick)
    requires k < |w.engine.slots| && k < |t.readings| && Opens(w, k, t)
    ensures var r, id := Evaluated(w, k, t), t.readings[k].newId;
            id in r.rows && (r.rows[id].critical <==> OpensCritical(w, k, t) || Opened(w, k, t).1)
  {
    StepFacts(w.engine.slots[k].config, w.engine.slots[k].machine, t.readings[k].input);
  }

  // Enough WARNINGs of a repeating rule lie in the window that ends at ts.
  predicate WindowFull(rule: string, log: seq<real>, ts: real) {
    rule in DEFAULTS.appliesTo && CountFrom(log + [ts], ts - DEFAULTS.windowSeconds) >= DEFAULTS.countThreshold
  }

  lemma TrackerExactly(w: Work, k: nat, t: Tick, log: seq<real>)
    requires k < |w.engine.slots| && k < |t.readings| && Opens(w, k, t)
    requires var rule := w.engine.slots[k].name; rule in DEFAULTS.appliesTo ==> Remembers(WindowOf(w, rule), log, t.ts)
    ensures Opened(w, k, t).1 <==> !OpensCritical(w, k, t) && WindowFull(w.engine.slots[k].name, log, t.ts)
  {
    var rule := w.engine.slots[k].name;
    if !OpensCritical(w, k, t) {
      if rule in DEFAULTS.appliesTo { RemembersTrimmed(WindowOf(w, rule), log, t.ts); }
      RaisedExactly(DEFAULTS, w.engine.windows, (w.engine.machineId, rule), t.ts, log);
    }
  }

  // The rule's WARNINGs before rule k of the tick after the run.
  ghost function WarningsBefore(w: Work, ticks: seq<Tick>, t: Tick, k: nat, rule: string): seq<real>
    requires Fit(w, ticks) && k <= |w.engine.slots| <= |t.readings|
  {
    Warned(Warnings(w, ticks, rule), After(w, ticks), t, k, rule)
  }

  lemma RemembersAt(w: Work, ticks: seq<Tick>, t: Tick, k: nat, rule: string)
    requires w.engine.windows == map[] && Fit(w, ticks) && Timely(ticks + [t])
    requires k <= |w.engine.slots| <= |t.readings| && rule in DEFAULTS.appliesTo
    ensures Remembers(WindowOf(Processed(After(w, ticks), t, k), rule), WarningsBefore(w, ticks, t, k, rule), t.ts)
  {
    assert forall i :: 0 <= i < |ticks| ==> (ticks + [t])[i] == ticks[i];
    assert ticks != [] ==> (ticks + [t])[|ticks| - 1].ts <= (ticks + [t])[|ticks|].ts;
    RunRemembers(w, ticks, rule, t.ts);
    TickRemembers(After(w, ticks), t, k, rule, Warnings(w, ticks, rule));
  }

  // Over every run of an engine with times that do not go back, an incident opens as CRITICAL
  // exactly when its rule judges it so, or the rule is one of the repeating ones and its WARNINGs
  // in the window that ends now, this one included, reach the threshold.
  lemma OpensAsCriticalExactly(w: Work, ticks: seq<Tick>, t: Tick, k: nat)
    requires w.engine.windows == map[] && Fit(w, ticks) && Timely(ticks + [t])
    requires k < |w.engine.slots| <= |t.readings| && Opens(Processed(After(w, ticks), t, k), k, t)
    ensures var at := Processed(After(w, ticks), t, k);
            var r, id, rule := Evaluated(at, k, t), t.readings[k].newId, at.engine.slots[k].name;
            && id in r.rows
            && (r.rows[id].critical <==>
                  OpensCritical(at, k, t) || WindowFull(rule, WarningsBefore(w, ticks, t, k, rule), t.ts))
  {
    var at := Processed(After(w, ticks), t, k);
    var rule := at.engine.slots[k].name;
    if rule in DEFAULTS.appliesTo { RemembersAt(w, ticks, t, k, rule); }
    OpeningSeverity(at, k, t);
    TrackerExactly(at, k, t, WarningsBefore(w, ticks, t, k, rule));
  }
}
