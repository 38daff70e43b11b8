// Engine and idle seconds of a shift, computed twice: streaming in the behavior engine
// (backend/app/edge/behavior/engine.py) and in one query over the stored ticks
// (backend/app/edge/shift_summary.py). Times are seconds; rounding is left out.
module IdleTotals {
  import opened Prelude
  import opened Sums
  import Analytics

  datatype Tick = Tick(ts: real, engineRunning: bool, hydraulicActive: bool, machineSpeed: real)

  // Seconds of one nominal tick, and the longest gap counted.
  datatype Settings = Settings(nominal: real, cap: real)

  predicate IsIdle(t: Tick) { t.engineRunning && !t.hydraulicActive && t.machineSpeed == 0.0 }

  // The cloud's minute rollups count as idle exactly the ticks whose time the edge counts as idle.
  lemma RollupsCountTheSame(g: map<string, Analytics.TickRow>, id: string, t: Tick)
    requires id in g && t.engineRunning == g[id].tick.engineRunning && t.machineSpeed == g[id].tick.machineSpeed
    requires t.hydraulicActive == g[id].tick.hydraulicActive
    ensures id in Analytics.Idle(g) <==> IsIdle(t)
    ensures id in Analytics.On(g) <==> t.engineRunning
    ensures id in Analytics.Working(g) <==> t.engineRunning && t.hydraulicActive
  {
  }

  // --- Streaming --------------------------------------------------------------------

  datatype Totals = Totals(engine: real, idle: real, lastTickAt: Option<real>, shiftEnded: bool)

  const NOTHING := Totals(0.0, 0.0, None, false)

  // Time this tick stands for. The first tick is not capped.
  function TickSeconds(c: Settings, last: Option<real>, ts: real): real {
    if last.None? then c.nominal else Min(Max(ts - last.value, 0.0), c.cap)
  }

  function Accumulated(c: Settings, x: Totals, t: Tick): Totals {
    var seconds := TickSeconds(c, x.lastTickAt, t.ts);
    x.(engine := x.engine + if t.engineRunning then seconds else 0.0,
       idle := x.idle + if IsIdle(t) then seconds else 0.0,
       lastTickAt := Some(t.ts))
  }

  class BehaviorEngine {
    const settings: Settings
    var totalEngineSeconds: real
    var totalIdleSeconds: real
    var lastTickAt: Option<real>
    var shiftEnded: bool

    constructor (settings: Settings)
      ensures this.settings == settings && View() == NOTHING
    {
      this.settings := settings;
      totalEngineSeconds, totalIdleSeconds, lastTickAt, shiftEnded := 0.0, 0.0, None, false;
    }

    function View(): Totals
      reads this
    {
      Totals(totalEngineSeconds, totalIdleSeconds, lastTickAt, shiftEnded)
    }

    method SecondsOf(ts: real) returns (seconds: real)
      modifies this`lastTickAt
      ensures seconds == TickSeconds(settings, old(lastTickAt), ts) && lastTickAt == Some(ts)
    {
      var previous := lastTickAt;
      lastTickAt := Some(ts);
      if previous.None? {
        return settings.nominal;
      }
      var gap := ts - previous.value;
      seconds := Min(Max(gap, 0.0), settings.cap);
    }

    method ProcessTick(t: Tick)
      modifies this
      ensures View() == Accumulated(settings, old(View()), t)
    {
      var seconds := SecondsOf(t.ts);
      if t.engineRunning {
        totalEngineSeconds := totalEngineSeconds + seconds;
        if !t.hydraulicActive && t.machineSpeed == 0.0 {
          totalIdleSeconds := totalIdleSeconds + seconds;
        }
      }
    }

    method Restore(saved: Totals)
      modifies this
      ensures View() == saved
    {
      totalEngineSeconds, totalIdleSeconds := saved.engine, saved.idle;
      lastTickAt, shiftEnded := saved.lastTickAt, saved.shiftEnded;
    }

    // Process a tick whose transaction commits or rolls back.
    method RunTick(t: Tick, commits: bool)
      modifies this
      ensures View() == if commits then Accumulated(settings, old(View()), t) else old(View())
    {
      var saved := View();
      ProcessTick(t);
      if !commits { Restore(saved); }
    }

    // At most once per shift; the ratio handed to the idle detector, if there is one.
    method OnShiftEnd() returns (ended: bool, ratio: Option<real>)
      modifies this`shiftEnded
      ensures ended == !old(shiftEnded) && shiftEnded
      ensures ratio == if ended && totalEngineSeconds != 0.0 then Some(totalIdleSeconds / totalEngineSeconds) else None
    {
      ratio := None;
      if shiftEnded {
        return false, None;
      }
      shiftEnded := true;
      ended := true;
      if totalEngineSeconds != 0.0 {
        ratio := Some(totalIdleSeconds / totalEngineSeconds);
      }
    }
  }

  // --- One query over the stored ticks ------------------------------------------------

  // p is the greatest stored timestamp before ts.
  ghost predicate IsPrevious(table: map<real, Tick>, ts: real, p: real) {
    p in table && p < ts && forall q :: q in table && q < ts ==> q <= p
  }

  // The row's dt: the gap to the previous stored tick, or one nominal tick; always capped.
  ghost predicate IsDt(c: Settings, table: map<real, Tick>, ts: real, dt: real) {
    || (exists p :: IsPrevious(table, ts, p) && dt == Min(ts - p, c.cap))
    || ((forall q :: q in table ==> q >= ts) && dt == Min(c.nominal, c.cap))
  }

  // dts gives every stored tick its dt.
  ghost predicate AreDts(c: Settings, table: map<real, Tick>, dts: map<real, real>) {
    dts.Keys == table.Keys && forall ts :: ts in table ==> IsDt(c, table, ts, dts[ts])
  }

  ghost function EngineSeconds(table: map<real, Tick>, dts: map<real, real>): real
    requires dts.Keys == table.Keys
  {
    Sum(map ts | ts in table && table[ts].engineRunning :: dts[ts])
  }

  ghost function IdleSeconds(table: map<real, Tick>, dts: map<real, real>): real
    requires dts.Keys == table.Keys
  {
    Sum(map ts | ts in table && table[ts].engineRunning && !table[ts].hydraulicActive && table[ts].machineSpeed == 0.0
             :: dts[ts])
  }

  lemma DtIsUnique(c: Settings, table: map<real, Tick>, ts: real, a: real, b: real)
    requires IsDt(c, table, ts, a) && IsDt(c, table, ts, b)
    ensures a == b
  {
  }

  // The dts, hence the sums, depend only on the stored rows, not on their order.
  lemma DtsAreUnique(c: Settings, table: map<real, Tick>, a: map<real, real>, b: map<real, real>)
    requires AreDts(c, table, a) && AreDts(c, table, b)
    ensures a == b
  {
    forall ts | ts in table ensures a[ts] == b[ts] {
      DtIsUnique(c, table, ts, a[ts], b[ts]);
    }
  }

  // --- They agree ---------------------------------------------------------------------

  // The committed ticks of a shift, in order.
  ghost predicate Increasing(ticks: seq<Tick>) {
    forall i, j :: 0 <= i < j < |ticks| ==> ticks[i].ts < ticks[j].ts
  }

  function Streamed(c: Settings, ticks: seq<Tick>): Totals {
    if ticks == [] then NOTHING else Accumulated(c, Streamed(c, ticks[..|ticks| - 1]), ticks[|ticks| - 1])
  }

  function Stored(ticks: seq<Tick>): map<real, Tick> {
    if ticks == [] then map[] else Stored(ticks[..|ticks| - 1])[ticks[|ticks| - 1].ts := ticks[|ticks| - 1]]
  }

  // How much more the streaming totals give the first tick than the query does.
  function FirstTickExcess(c: Settings, ticks: seq<Tick>, counts: bool): real {
    if ticks != [] && counts then c.nominal - Min(c.nominal, c.cap) else 0.0
  }

  lemma {:induction false} StoredExactly(ticks: seq<Tick>)
    requires Increasing(ticks)
    ensures forall ts :: ts in Stored(ticks) <==> exists i :: 0 <= i < |ticks| && ticks[i].ts == ts
    ensures ticks != [] ==> forall ts :: ts in Stored(ticks) ==> ts <= ticks[|ticks| - 1].ts
  {
    if ticks != [] { StoredExactly(ticks[..|ticks| - 1]); }
  }

  lemma {:induction false} LastSeen(c: Settings, ticks: seq<Tick>)
    ensures Streamed(c, ticks).lastTickAt == if ticks == [] then None else Some(ticks[|ticks| - 1].ts)
    ensures !Streamed(c, ticks).shiftEnded
  {
    if ticks != [] { LastSeen(c, ticks[..|ticks| - 1]); }
  }

  // Dt of the newest tick, and of the others unchanged.
  function NewestDt(c: Settings, ticks: seq<Tick>): real
    requires ticks != []
  {
    if |ticks| == 1 then Min(c.nominal, c.cap) else Min(ticks[|ticks| - 1].ts - ticks[|ticks| - 2].ts, c.cap)
  }

  ghost predicate AllBefore(table: map<real, Tick>, ts: real) { forall q :: q in table ==> q < ts }

  lemma EarlierDtStays(c: Settings, before: map<real, Tick>, t: Tick, ts: real, dt: real)
    requires IsDt(c, before, ts, dt) && ts in before && AllBefore(before, t.ts)
    ensures IsDt(c, before[t.ts := t], ts, dt)
  {
    var table := before[t.ts := t];
    if p :| IsPrevious(before, ts, p) && dt == Min(ts - p, c.cap) {
      assert IsPrevious(table, ts, p);
    } else {
      assert forall q :: q in table ==> q >= ts;
    }
  }

  lemma StoredIsBefore(ticks: seq<Tick>)
    requires ticks != [] && Increasing(ticks)
    ensures AllBefore(Stored(ticks[..|ticks| - 1]), ticks[|ticks| - 1].ts)
  {
    var n := |ticks| - 1;
    StoredExactly(ticks[..n]);
    if n > 0 { assert ticks[n - 1].ts < ticks[n].ts; }
  }

  lemma NewestDtIsDt(c: Settings, ticks: seq<Tick>)
    requires ticks != [] && Increasing(ticks)
    ensures IsDt(c, Stored(ticks), ticks[|ticks| - 1].ts, NewestDt(c, ticks))
  {
    var n := |ticks| - 1;
    StoredIsBefore(ticks);
    StoredExactly(ticks[..n]);
    if n > 0 {
      assert ticks[..n][n - 1].ts in Stored(ticks[..n]);
      assert IsPrevious(Stored(ticks), ticks[n].ts, ticks[n - 1].ts);
    }
  }

  lemma DtsGrow(c: Settings, ticks: seq<Tick>, dts: map<real, real>)
    requires ticks != [] && Increasing(ticks) && AreDts(c, Stored(ticks[..|ticks| - 1]), dts)
    ensures ticks[|ticks| - 1].ts !in Stored(ticks[..|ticks| - 1])
    ensures AreDts(c, Stored(ticks), dts[ticks[|ticks| - 1].ts := NewestDt(c, ticks)])
  {
    var n := |ticks| - 1;
    NewestDtIsDt(c, ticks);
    StoredIsBefore(ticks);
    forall ts | ts in Stored(ticks[..n]) ensures IsDt(c, Stored(ticks), ts, dts[ts]) {
      EarlierDtStays(c, Stored(ticks[..n]), ticks[n], ts, dts[ts]);
    }
  }

  ghost function Of(table: map<real, Tick>, dts: map<real, real>, idle: bool): map<real, real>
    requires dts.Keys == table.Keys
  {
    map ts | ts in table && (if idle then IsIdle(table[ts]) else table[ts].engineRunning) :: dts[ts]
  }

  lemma OfGrows(table: map<real, Tick>, dts: map<real, real>, t: Tick, dt: real, idle: bool)
    requires dts.Keys == table.Keys && t.ts !in table
    ensures Sum(Of(table[t.ts := t], dts[t.ts := dt], idle))
         == Sum(Of(table, dts, idle)) + if (if idle then IsIdle(t) else t.engineRunning) then dt else 0.0
  {
    var before, after := Of(table, dts, idle), Of(table[t.ts := t], dts[t.ts := dt], idle);
    if if idle then IsIdle(t) else t.engineRunning {
      assert after == before[t.ts := dt];
      SumInsert(before, t.ts, dt);
    } else {
      assert after == before;
    }
  }

  lemma SumsAreOf(table: map<real, Tick>, dts: map<real, real>)
    requires dts.Keys == table.Keys
    ensures EngineSeconds(table, dts) == Sum(Of(table, dts, false))
    ensures IdleSeconds(table, dts) == Sum(Of(table, dts, true))
  {
    assert (map ts | ts in table && table[ts].engineRunning :: dts[ts]) == Of(table, dts, false);
    var idle := map ts | ts in table && table[ts].engineRunning && !table[ts].hydraulicActive
                         && table[ts].machineSpeed == 0.0 :: dts[ts];
    forall ts ensures ts in idle <==> ts in Of(table, dts, true) { assert ts in table ==> ts in dts; }
    assert idle == Of(table, dts, true);
  }

  lemma NewestSeconds(c: Settings, ticks: seq<Tick>)
    requires ticks != [] && Increasing(ticks)
    ensures TickSeconds(c, Streamed(c, ticks[..|ticks| - 1]).lastTickAt, ticks[|ticks| - 1].ts)
         == NewestDt(c, ticks) + if |ticks| == 1 then c.nominal - Min(c.nominal, c.cap) else 0.0
  {
    LastSeen(c, ticks[..|ticks| - 1]);
  }

  // For strictly increasing timestamps the streaming totals exceed the query's by exactly what the
  // uncapped first tick adds, and by nothing else.
  lemma {:induction false} StreamingAgainstBatch(c: Settings, ticks: seq<Tick>) returns (dts: map<real, real>)
    requires Increasing(ticks)
    ensures AreDts(c, Stored(ticks), dts)
    ensures Streamed(c, ticks).engine
         == EngineSeconds(Stored(ticks), dts) + FirstTickExcess(c, ticks, ticks != [] && ticks[0].engineRunning)
    ensures Streamed(c, ticks).idle
         == IdleSeconds(Stored(ticks), dts) + FirstTickExcess(c, ticks, ticks != [] && IsIdle(ticks[0]))
  {
    if ticks == [] {
      dts := map[];
      SumsAreOf(Stored(ticks), dts);
    } else {
      var n := |ticks| - 1;
      var t := ticks[n];
      var before := StreamingAgainstBatch(c, ticks[..n]);
      DtsGrow(c, ticks, before);
      dts := before[t.ts := NewestDt(c, ticks)];
      NewestSeconds(c, ticks);
      SumsAreOf(Stored(ticks[..n]), before);
      SumsAreOf(Stored(ticks), dts);
      OfGrows(Stored(ticks[..n]), before, t, NewestDt(c, ticks), false);
      OfGrows(Stored(ticks[..n]), before, t, NewestDt(c, ticks), true);
    }
  }

  // Streaming equals batch exactly when the nominal tick is within the cap or the engine was off
  // on the first tick.
  lemma StreamingEqualsBatchExactly(c: Settings, ticks: seq<Tick>, dts: map<real, real>)
    requires Increasing(ticks) && AreDts(c, Stored(ticks), dts)
    ensures Streamed(c, ticks).engine == EngineSeconds(Stored(ticks), dts)
            && Streamed(c, ticks).idle == IdleSeconds(Stored(ticks), dts)
       <==> c.nominal <= c.cap || ticks == [] || !ticks[0].engineRunning
  {
    var same := StreamingAgainstBatch(c, ticks);
    DtsAreUnique(c, Stored(ticks), dts, same);
  }

  // 0 <= idle <= engine time.
  lemma {:induction false} IdleWithinEngine(c: Settings, ticks: seq<Tick>)
    requires c.nominal >= 0.0 && c.cap >= 0.0
    ensures 0.0 <= Streamed(c, ticks).idle <= Streamed(c, ticks).engine
  {
    if ticks != [] { IdleWithinEngine(c, ticks[..|ticks| - 1]); }
  }

  // A first tick longer than the cap: the engine counts all of it, the summary only the cap.
  lemma LongFirstTickDiffers()
    ensures var c, ticks := Settings(10.0, 5.0), [Tick(0.0, true, false, 0.0)];
            && Streamed(c, ticks).idle == 10.0
            && forall dts :: AreDts(c, Stored(ticks), dts) ==> IdleSeconds(Stored(ticks), dts) == 5.0
  {
    var c, ticks := Settings(10.0, 5.0), [Tick(0.0, true, false, 0.0)];
    assert ticks[..0] == [];
    assert Streamed(c, ticks) == Accumulated(c, NOTHING, ticks[0]);
    forall dts | AreDts(c, Stored(ticks), dts) ensures IdleSeconds(Stored(ticks), dts) == 5.0 {
      var same := StreamingAgainstBatch(c, ticks);
      DtsAreUnique(c, Stored(ticks), dts, same);
    }
  }

  // --- Runs with rolled-back ticks ------------------------------------------------------

  datatype Attempt = Attempt(tick: Tick, commits: bool)

  function Committed(attempts: seq<Attempt>): seq<Tick> {
    if attempts == [] then []
    else
      var last := attempts[|attempts| - 1];
      Committed(attempts[..|attempts| - 1]) + if last.commits then [last.tick] else []
  }

  // A whole shift through the engine: the totals are those of the committed ticks alone.
  method RunShift(engine: BehaviorEngine, attempts: seq<Attempt>)
    requires engine.View() == NOTHING
    modifies engine
    ensures engine.View() == Streamed(engine.settings, Committed(attempts))
  {
    for i := 0 to |attempts|
      invariant engine.View() == Streamed(engine.settings, Committed(attempts[..i]))
    {
      var done := Committed(attempts[..i]);
      assert attempts[..i + 1][..i] == attempts[..i];
      assert (done + [attempts[i].tick])[..|done|] == done;
      assert Committed(attempts[..i + 1]) == if attempts[i].commits then done + [attempts[i].tick] else done;
      engine.RunTick(attempts[i].tick, attempts[i].commits);
    }
    assert attempts[..|attempts|] == attempts;
  }
}
