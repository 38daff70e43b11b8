// The timed rule state machine (backend/app/edge/safety/state_machine.py), and what its openings
// and closings mean in terms of the inputs alone. Times are simulation seconds.
module RuleMachine {
  import opened Prelude

  // clearingHold is already defaulted to debounce.
  datatype Config = Config(
    debounce: real, cooldown: real, graceWarning: real, graceCritical: real, clearingHold: real)

  // One tick of a rule: judged against its thresholds, or no usable reading.
  datatype Input = Judged(ts: real, active: bool, critical: bool) | Unknown

  datatype Machine =
    | Idle
    | Pending(pendingSince: real)
    | Active(pendingSince: real, activeSince: real, critical: bool)
    | Clearing(pendingSince: real, activeSince: real, clearingSince: real, critical: bool)
    | Closed(closedSince: real, critical: bool)

  datatype Output = Output(opens: bool, closes: bool, escalates: bool)

  const QUIET := Output(false, false, false)

  predicate IsOpen(m: Machine) { m.Active? || m.Clearing? }

  // How long the condition must hold before an incident opens.
  function OpeningDelay(c: Config): real {
    if c.graceWarning <= 0.0 then c.debounce
    else if c.graceCritical <= 0.0 then c.graceWarning
    else Min(c.graceWarning, c.graceCritical)
  }

  // The severity of an incident that opens after the condition held for elapsed seconds.
  predicate OpensCritical(c: Config, elapsed: real, critical: bool) {
    if c.graceWarning > 0.0 then c.graceCritical > 0.0 && elapsed >= c.graceCritical else critical
  }

  predicate Escalates(c: Config, m: Machine, ts: real, critical: bool)
    requires m.Active?
  {
    !m.critical && (critical || (c.graceCritical > 0.0 && ts - m.pendingSince >= c.graceCritical))
  }

  function Step(c: Config, m: Machine, i: Input): (Machine, Output) {
    if i.Unknown? then
      (if m.Clearing? then Active(m.pendingSince, m.activeSince, m.critical) else m, QUIET)
    else
      match m
      case Idle => (if i.active then Pending(i.ts) else Idle, QUIET)
      case Pending(since) =>
        if !i.active then (Idle, QUIET)
        else if i.ts - since >= OpeningDelay(c)
        then (Active(since, i.ts, OpensCritical(c, i.ts - since, i.critical)), Output(true, false, false))
        else (m, QUIET)
      case Active(since, activeSince, critical) =>
        var escalated := Escalates(c, m, i.ts, i.critical);
        (if i.active then Active(since, activeSince, critical || escalated)
         else Clearing(since, activeSince, i.ts, critical || escalated),
         Output(false, false, escalated))
      case Clearing(since, activeSince, clearingSince, critical) =>
        if i.active then (Active(since, activeSince, critical), QUIET)
        else if i.ts - clearingSince >= c.clearingHold then (Closed(i.ts, critical), Output(false, true, false))
        else (m, QUIET)
      case Closed(closedSince, critical) =>
        (if i.ts - closedSince >= c.cooldown then Idle else m, QUIET)
  }

  // --- The object -------------------------------------------------------------------

  datatype RuleState = IDLE | PENDING | ACTIVE | CLEARING | CLOSED

  class RuleStateMachine {
    const config: Config
    var state: RuleState
    var pendingSince: Option<real>
    var activeSince: Option<real>
    var clearingSince: Option<real>
    var closedSince: Option<real>
    var critical: bool                  // current_severity

    predicate Valid()
      reads this
    {
      && (state != IDLE && state != CLOSED ==> pendingSince.Some?)
      && (state == ACTIVE || state == CLEARING ==> activeSince.Some?)
      && (state == CLEARING ==> clearingSince.Some?)
      && (state == CLOSED ==> closedSince.Some?)
    }

    ghost function Abs(): Machine
      requires Valid()
      reads this
    {
      match state
      case IDLE => Idle
      case PENDING => Pending(pendingSince.value)
      case ACTIVE => Active(pendingSince.value, activeSince.value, critical)
      case CLEARING => Clearing(pendingSince.value, activeSince.value, clearingSince.value, critical)
      case CLOSED => Closed(closedSince.value, critical)
    }

    constructor (config: Config)
      ensures Valid() && Abs() == Idle && this.config == config
    {
      this.config := config;
      state := IDLE;
      pendingSince, activeSince, clearingSince, closedSince := None, None, None, None;
      critical := false;
    }

    method Evaluate(ts: real, active: bool, shouldBeCritical: bool) returns (result: Output)
      requires Valid()
      modifies this
      ensures Valid() && (Abs(), result) == Step(config, old(Abs()), Judged(ts, active, shouldBeCritical))
    {
      match state {
        case IDLE => result := FromIdle(ts, active);
        case PENDING => result := FromPending(ts, active, shouldBeCritical);
        case ACTIVE => result := FromActive(ts, active, shouldBeCritical);
        case CLEARING => result := FromClearing(ts, active);
        case CLOSED => result := FromClosed(ts);
      }
    }

    method HoldUnknown() returns (result: Output)
      requires Valid()
      modifies this
      ensures Valid() && (Abs(), result) == Step(config, old(Abs()), Unknown)
    {
      if state == CLEARING {
        state := ACTIVE;
        clearingSince := None;
      }
      result := QUIET;
    }

    method Reset()
      modifies this
      ensures Valid() && Abs() == Idle && !critical
    {
      state := IDLE;
      pendingSince, activeSince, clearingSince, closedSince := None, None, None, None;
      critical := false;
    }

    method FromIdle(ts: real, active: bool) returns (result: Output)
      requires Valid() && state == IDLE
      modifies this
      ensures Valid() && Abs() == (if active then Pending(ts) else Idle) && result == QUIET
    {
      result := QUIET;
      if active {
        pendingSince := Some(ts);
        state := PENDING;
      }
    }

    method FromPending(ts: real, active: bool, shouldBeCritical: bool) returns (result: Output)
      requires Valid() && state == PENDING
      modifies this
      ensures Valid() && (Abs(), result) == Step(config, old(Abs()), Judged(ts, active, shouldBeCritical))
    {
      result := QUIET;
      if !active {
        state := IDLE;
        pendingSince := None;
        return;
      }
      var elapsed := ts - pendingSince.value;
      if config.graceWarning > 0.0 {
        if elapsed >= config.graceCritical && config.graceCritical > 0.0 {
          critical := true;
          state := ACTIVE;
          activeSince := Some(ts);
          result := result.(opens := true);
        } else if elapsed >= config.graceWarning {
          critical := false;
          state := ACTIVE;
          activeSince := Some(ts);
          result := result.(opens := true);
        }
        return;
      }
      if elapsed >= config.debounce {
        critical := shouldBeCritical;
        state := ACTIVE;
        activeSince := Some(ts);
        result := result.(opens := true);
      }
    }

    method FromActive(ts: real, active: bool, shouldBeCritical: bool) returns (result: Output)
      requires Valid() && state == ACTIVE
      modifies this
      ensures Valid() && (Abs(), result) == Step(config, old(Abs()), Judged(ts, active, shouldBeCritical))
    {
      result := QUIET;
      if config.graceCritical > 0.0 && pendingSince.Some? {
        var elapsed := ts - pendingSince.value;
        if elapsed >= config.graceCritical && !critical {
          critical := true;
          result := result.(escalates := true);
        }
      }
      if shouldBeCritical && !critical {
        critical := true;
        result := result.(escalates := true);
      }
      if !active {
        clearingSince := Some(ts);
        state := CLEARING;
      }
    }

    method FromClearing(ts: real, active: bool) returns (result: Output)
      requires Valid() && state == CLEARING
      modifies this
      ensures Valid() && (Abs(), result) == Step(config, old(Abs()), Judged(ts, active, false))
    {
      result := QUIET;
      if active {
        state := ACTIVE;
        clearingSince := None;
        return;
      }
      if ts - clearingSince.value >= config.clearingHold {
        state := CLOSED;
        closedSince := Some(ts);
        result := result.(closes := true);
      }
    }

    method FromClosed(ts: real) returns (result: Output)
      requires Valid() && state == CLOSED
      modifies this
      ensures Valid() && (Abs(), result) == Step(config, old(Abs()), Judged(ts, false, false))
    {
      result := QUIET;
      if ts - closedSince.value >= config.cooldown {
        state := IDLE;
        pendingSince, activeSince, clearingSince, closedSince := None, None, None, None;
      }
    }
  }

  // --- Runs -------------------------------------------------------------------------

  // The machine after the first n inputs.
  function After(c: Config, inputs: seq<Input>, n: nat): Machine
    requires n <= |inputs|
  {
    if n == 0 then Idle else Step(c, After(c, inputs, n - 1), inputs[n - 1]).0
  }

  function OutputAt(c: Config, inputs: seq<Input>, j: nat): Output
    requires j < |inputs|
  {
    Step(c, After(c, inputs, j), inputs[j]).1
  }

  // Timestamps of judged ticks never go back.
  ghost predicate Timely(inputs: seq<Input>) {
    forall i, j :: 0 <= i < j < |inputs| && inputs[i].Judged? && inputs[j].Judged? ==> inputs[i].ts <= inputs[j].ts
  }

  // --- What opening and closing mean, without the machine ---------------------------

  // Every input of [i, j] was judged and found the condition absent.
  ghost predicate QuietSince(inputs: seq<Input>, i: nat, j: nat)
    requires j < |inputs|
  {
    i <= j && forall k :: i <= k <= j ==> inputs[k].Judged? && !inputs[k].active
  }

  // The condition was judged present at i and j, and never judged absent between.
  ghost predicate PresentSince(inputs: seq<Input>, i: nat, j: nat)
    requires j < |inputs|
  {
    && i <= j && inputs[i].Judged? && inputs[j].Judged?
    && forall k :: i <= k <= j && inputs[k].Judged? ==> inputs[k].active
  }

  // j confirms the clearing of an incident opened at o.
  ghost predicate ConfirmsClear(c: Config, inputs: seq<Input>, o: nat, j: nat)
    requires j < |inputs|
  {
    exists i :: o < i < j && QuietSince(inputs, i, j) && inputs[j].ts - inputs[i].ts >= c.clearingHold
  }

  // A condition present for so long opens an incident: for one of the grace times, or, without a
  // warning grace time, for the debounce time.
  predicate LongEnough(c: Config, seconds: real) {
    if c.graceWarning > 0.0 then seconds >= c.graceWarning || (c.graceCritical > 0.0 && seconds >= c.graceCritical)
    else seconds >= c.debounce
  }

  // j confirms the condition for a rule that has been waiting since input f.
  ghost predicate ConfirmsHazard(c: Config, inputs: seq<Input>, f: nat, j: nat)
    requires j < |inputs|
  {
    exists i :: f <= i < j && PresentSince(inputs, i, j) && LongEnough(c, inputs[j].ts - inputs[i].ts)
  }

  // Waiting since input `since`, open since the input `at` that opened it, or cooling down since
  // the input `at` that closed it.
  datatype Stage = Waiting(since: nat) | Opened(at: nat) | Cooling(at: nat)

  ghost function StageAfter(c: Config, inputs: seq<Input>, n: nat): Stage
    requires n <= |inputs|
  {
    if n == 0 then Waiting(0) else NextStage(c, inputs, n - 1, StageAfter(c, inputs, n - 1))
  }

  ghost function NextStage(c: Config, inputs: seq<Input>, j: nat, s: Stage): Stage
    requires j < |inputs|
  {
    match s
    case Waiting(f) => if ConfirmsHazard(c, inputs, f, j) then Opened(j) else s
    case Opened(o) => if ConfirmsClear(c, inputs, o, j) then Cooling(j) else s
    case Cooling(k) => if CooledDown(c, inputs, k, j) then Waiting(j + 1) else s
  }

  predicate CooledDown(c: Config, inputs: seq<Input>, k: nat, j: nat)
    requires j < |inputs|
  {
    k < j && inputs[k].Judged? && inputs[j].Judged? && inputs[j].ts - inputs[k].ts >= c.cooldown
  }

  ghost predicate QuietBefore(inputs: seq<Input>, i: nat, n: nat)
    requires n <= |inputs|
  {
    forall k :: i <= k < n ==> inputs[k].Judged? && !inputs[k].active
  }

  // Start of the quiet stretch that reaches up to n, or n.
  function QuietStart(inputs: seq<Input>, lo: nat, n: nat): (k: nat)
    requires lo <= n <= |inputs|
    ensures lo <= k <= n && QuietBefore(inputs, k, n)
  {
    if lo < n && inputs[n - 1].Judged? && !inputs[n - 1].active then QuietStart(inputs, lo, n - 1) else n
  }

  // First tick of the present stretch that reaches up to n.
  function PresentStart(inputs: seq<Input>, lo: nat, n: nat): (p: Option<nat>)
    requires lo <= n <= |inputs|
    ensures p.Some? ==> lo <= p.value < n && inputs[p.value].Judged?
  {
    if lo == n then None
    else if inputs[n - 1].Unknown? then PresentStart(inputs, lo, n - 1)
    else if !inputs[n - 1].active then None
    else if PresentStart(inputs, lo, n - 1).Some? then PresentStart(inputs, lo, n - 1)
    else Some(n - 1)
  }

  lemma {:induction false} QuietStartIsEarliest(inputs: seq<Input>, lo: nat, n: nat, i: nat)
    requires lo <= i <= n <= |inputs| && QuietBefore(inputs, i, n)
    ensures QuietStart(inputs, lo, n) <= i
  {
    if i < n {
      assert inputs[n - 1].Judged?;
      QuietStartIsEarliest(inputs, lo, n - 1, i);
    }
  }

  ghost predicate PresentBefore(inputs: seq<Input>, i: nat, n: nat)
    requires n <= |inputs|
  {
    i < n && inputs[i].Judged? && forall k :: i <= k < n && inputs[k].Judged? ==> inputs[k].active
  }

  lemma {:induction false} PresentStartIsEarliest(inputs: seq<Input>, lo: nat, n: nat)
    requires lo <= n <= |inputs|
    ensures PresentStart(inputs, lo, n).Some? ==> PresentBefore(inputs, PresentStart(inputs, lo, n).value, n)
    ensures forall i :: lo <= i < n && PresentBefore(inputs, i, n) ==>
              PresentStart(inputs, lo, n).Some? && PresentStart(inputs, lo, n).value <= i
  {
    if lo < n {
      PresentStartIsEarliest(inputs, lo, n - 1);
      forall i | lo <= i < n && PresentBefore(inputs, i, n)
        ensures PresentStart(inputs, lo, n).Some? && PresentStart(inputs, lo, n).value <= i
      {
        if i < n - 1 { assert PresentBefore(inputs, i, n - 1); }
      }
    }
  }

  // The present stretch that reaches up to j starts no later than any other one confirming j.
  lemma StretchStartsFirst(inputs: seq<Input>, f: nat, i: nat, j: nat)
    requires f <= i < j < |inputs| && Timely(inputs) && PresentSince(inputs, i, j)
    ensures PresentStart(inputs, f, j).Some? && PresentStart(inputs, f, j).value <= i
    ensures inputs[PresentStart(inputs, f, j).value].ts <= inputs[i].ts
  {
    PresentStartIsEarliest(inputs, f, j);
    assert PresentBefore(inputs, i, j);
  }

  lemma StretchIsPresent(inputs: seq<Input>, f: nat, j: nat)
    requires f <= j < |inputs| && PresentStart(inputs, f, j).Some? && inputs[j].Judged? && inputs[j].active
    ensures PresentSince(inputs, PresentStart(inputs, f, j).value, j)
  {
    PresentStartIsEarliest(inputs, f, j);
  }

  lemma HazardAtStart(c: Config, inputs: seq<Input>, f: nat, j: nat)
    requires f <= j < |inputs| && Timely(inputs)
    ensures ConfirmsHazard(c, inputs, f, j) <==>
              && inputs[j].Judged? && inputs[j].active && PresentStart(inputs, f, j).Some?
              && LongEnough(c, inputs[j].ts - inputs[PresentStart(inputs, f, j).value].ts)
  {
    if ConfirmsHazard(c, inputs, f, j) {
      var i :| f <= i < j && PresentSince(inputs, i, j) && LongEnough(c, inputs[j].ts - inputs[i].ts);
      StretchStartsFirst(inputs, f, i, j);
    }
    if inputs[j].Judged? && inputs[j].active && PresentStart(inputs, f, j).Some? { StretchIsPresent(inputs, f, j); }
  }

  lemma ClearAtStart(c: Config, inputs: seq<Input>, o: nat, j: nat)
    requires o < j < |inputs| && Timely(inputs)
    ensures var q := QuietStart(inputs, o + 1, j);
            ConfirmsClear(c, inputs, o, j) <==>
              && q < j && inputs[j].Judged? && !inputs[j].active
              && QuietBefore(inputs, q, j) && inputs[q].Judged?
              && inputs[j].ts - inputs[q].ts >= c.clearingHold
  {
    var q := QuietStart(inputs, o + 1, j);
    if ConfirmsClear(c, inputs, o, j) {
      var i :| o < i < j && QuietSince(inputs, i, j) && inputs[j].ts - inputs[i].ts >= c.clearingHold;
      QuietStartIsEarliest(inputs, o + 1, j, i);
    }
    if q < j && inputs[j].Judged? && !inputs[j].active && inputs[j].ts - inputs[q].ts >= c.clearingHold {
      assert QuietSince(inputs, q, j);
    }
  }

  // The machine's state, read off the inputs and the stage.
  ghost predicate Represents(inputs: seq<Input>, n: nat, m: Machine, s: Stage)
    requires n <= |inputs|
  {
    match s
    case Waiting(f) =>
      && f <= n
      && var p := PresentStart(inputs, f, n);
         if p.None? then m.Idle? else m == Pending(inputs[p.value].ts)
    case Opened(o) =>
      && o < n && inputs[o].Judged? && IsOpen(m) && m.activeSince == inputs[o].ts
      && var q := QuietStart(inputs, o + 1, n);
         if q == n then m.Active? else m.Clearing? && inputs[q].Judged? && m.clearingSince == inputs[q].ts
    case Cooling(k) => k < n && inputs[k].Judged? && m.Closed? && m.closedSince == inputs[k].ts
  }

  lemma WaitingStep(c: Config, inputs: seq<Input>, j: nat, m: Machine, f: nat)
    requires j < |inputs| && Timely(inputs) && Represents(inputs, j, m, Waiting(f))
    ensures Represents(inputs, j + 1, Step(c, m, inputs[j]).0, NextStage(c, inputs, j, Waiting(f)))
  {
    HazardAtStart(c, inputs, f, j);
  }

  lemma OpenStep(c: Config, inputs: seq<Input>, j: nat, m: Machine, o: nat)
    requires j < |inputs| && Timely(inputs) && Represents(inputs, j, m, Opened(o))
    ensures Represents(inputs, j + 1, Step(c, m, inputs[j]).0, NextStage(c, inputs, j, Opened(o)))
  {
    ClearAtStart(c, inputs, o, j);
  }

  lemma CoolingStep(c: Config, inputs: seq<Input>, j: nat, m: Machine, k: nat)
    requires j < |inputs| && Represents(inputs, j, m, Cooling(k))
    ensures Represents(inputs, j + 1, Step(c, m, inputs[j]).0, NextStage(c, inputs, j, Cooling(k)))
  {
  }

  lemma StageStep(c: Config, inputs: seq<Input>, j: nat, m: Machine, s: Stage)
    requires j < |inputs| && Timely(inputs) && Represents(inputs, j, m, s)
    ensures Represents(inputs, j + 1, Step(c, m, inputs[j]).0, NextStage(c, inputs, j, s))
  {
    match s
    case Waiting(f) => WaitingStep(c, inputs, j, m, f);
    case Opened(o) => OpenStep(c, inputs, j, m, o);
    case Cooling(k) => CoolingStep(c, inputs, j, m, k);
  }

  // The machine refines the declarative stages, for every input sequence whose time never goes back.
  lemma {:induction false} MachineRefinesStages(c: Config, inputs: seq<Input>, n: nat)
    requires n <= |inputs| && Timely(inputs)
    ensures Represents(inputs, n, After(c, inputs, n), StageAfter(c, inputs, n))
  {
    if n > 0 {
      MachineRefinesStages(c, inputs, n - 1);
      StageStep(c, inputs, n - 1, After(c, inputs, n - 1), StageAfter(c, inputs, n - 1));
    }
  }

  // An incident opens at j exactly when the rule is waiting and the condition, judged present at
  // some earlier tick of the wait, was never judged absent since, for long enough.
  lemma OpensExactly(c: Config, inputs: seq<Input>, j: nat)
    requires j < |inputs| && Timely(inputs)
    ensures OutputAt(c, inputs, j).opens <==>
              StageAfter(c, inputs, j).Waiting? && ConfirmsHazard(c, inputs, StageAfter(c, inputs, j).since, j)
  {
    MachineRefinesStages(c, inputs, j);
    var s := StageAfter(c, inputs, j);
    if s.Waiting? { HazardAtStart(c, inputs, s.since, j); }
  }

  // An incident closes at j exactly when one is open and every tick of some stretch after the
  // opening, up to j and at least the clearing hold long, was judged and found the condition absent.
  lemma ClosesExactly(c: Config, inputs: seq<Input>, j: nat)
    requires j < |inputs| && Timely(inputs)
    ensures OutputAt(c, inputs, j).closes <==>
              StageAfter(c, inputs, j).Opened? && ConfirmsClear(c, inputs, StageAfter(c, inputs, j).at, j)
  {
    MachineRefinesStages(c, inputs, j);
    var s := StageAfter(c, inputs, j);
    if s.Opened? { ClearAtStart(c, inputs, s.at, j); }
  }

  // --- Alternation, rising severity ---------------------------------------------------

  ghost function CountOpened(c: Config, inputs: seq<Input>, n: nat): nat
    requires n <= |inputs|
  {
    if n == 0 then 0 else CountOpened(c, inputs, n - 1) + if OutputAt(c, inputs, n - 1).opens then 1 else 0
  }

  ghost function CountClosed(c: Config, inputs: seq<Input>, n: nat): nat
    requires n <= |inputs|
  {
    if n == 0 then 0 else CountClosed(c, inputs, n - 1) + if OutputAt(c, inputs, n - 1).closes then 1 else 0
  }

  // Opens and closes strictly alternate, starting with an open, whatever the timestamps.
  lemma {:induction false} OpensAndClosesAlternate(c: Config, inputs: seq<Input>, n: nat)
    requires n <= |inputs|
    ensures CountOpened(c, inputs, n) == CountClosed(c, inputs, n) + if IsOpen(After(c, inputs, n)) then 1 else 0
  {
    if n > 0 { OpensAndClosesAlternate(c, inputs, n - 1); }
  }

  // The same incident is open at i and j.
  ghost predicate SameIncident(c: Config, inputs: seq<Input>, i: nat, j: nat)
    requires i <= j <= |inputs|
  {
    IsOpen(After(c, inputs, i)) && CountOpened(c, inputs, i) == CountOpened(c, inputs, j) && IsOpen(After(c, inputs, j))
  }

  ghost function CountEscalated(c: Config, inputs: seq<Input>, n: nat): nat
    requires n <= |inputs|
  {
    if n == 0 then 0 else CountEscalated(c, inputs, n - 1) + if OutputAt(c, inputs, n - 1).escalates then 1 else 0
  }

  lemma {:induction false} CountsGrow(c: Config, inputs: seq<Input>, i: nat, j: nat)
    requires i <= j <= |inputs|
    ensures CountOpened(c, inputs, i) <= CountOpened(c, inputs, j)
    ensures CountClosed(c, inputs, i) <= CountClosed(c, inputs, j)
  {
    if i < j { CountsGrow(c, inputs, i, j - 1); }
  }

  // An incident that is open at i and at j was open all the time between.
  lemma StaysOpen(c: Config, inputs: seq<Input>, i: nat, j: nat)
    requires i < j <= |inputs| && SameIncident(c, inputs, i, j)
    ensures SameIncident(c, inputs, i, j - 1)
    ensures !OutputAt(c, inputs, j - 1).opens && !OutputAt(c, inputs, j - 1).closes
  {
    CountsGrow(c, inputs, i, j - 1);
    OpensAndClosesAlternate(c, inputs, i);
    OpensAndClosesAlternate(c, inputs, j - 1);
    OpensAndClosesAlternate(c, inputs, j);
  }

  // One input of a running incident.
  lemma SeverityStep(c: Config, m: Machine, i: Input)
    requires IsOpen(m) && !Step(c, m, i).1.closes
    ensures IsOpen(Step(c, m, i).0) && (m.critical ==> Step(c, m, i).0.critical)
    ensures Step(c, m, i).1.escalates <==> Step(c, m, i).0.critical && !m.critical
  {
  }

  // Within one incident severity never falls, and it escalates exactly when it rises, so at most once.
  lemma {:induction false} SeverityRisesOnce(c: Config, inputs: seq<Input>, i: nat, j: nat)
    requires i <= j <= |inputs| && SameIncident(c, inputs, i, j)
    ensures After(c, inputs, i).critical ==> After(c, inputs, j).critical
    ensures CountEscalated(c, inputs, j) - CountEscalated(c, inputs, i)
         == if After(c, inputs, j).critical && !After(c, inputs, i).critical then 1 else 0
  {
    if i < j {
      StaysOpen(c, inputs, i, j);
      SeverityRisesOnce(c, inputs, i, j - 1);
      SeverityStep(c, After(c, inputs, j - 1), inputs[j - 1]);
    }
  }

  // --- Severity, from the inputs alone ------------------------------------------------

  // The condition, waited for since input f and confirmed at input o, had been present since time t.
  ghost predicate PresentFrom(inputs: seq<Input>, f: nat, o: nat, t: real)
    requires o < |inputs|
  {
    exists i :: f <= i < o && PresentSince(inputs, i, o) && inputs[i].ts <= t
  }

  // An incident that opens at o does so as critical: by the critical grace time, or without grace
  // times by its reading.
  ghost predicate OpenedCritical(c: Config, inputs: seq<Input>, f: nat, o: nat)
    requires o < |inputs| && inputs[o].Judged?
  {
    if c.graceWarning > 0.0 then c.graceCritical > 0.0 && PresentFrom(inputs, f, o, inputs[o].ts - c.graceCritical)
    else inputs[o].critical
  }

  // Input k, later than o and not right after a quiet one, crosses the critical threshold or the
  // critical grace time.
  ghost predicate Crosses(c: Config, inputs: seq<Input>, f: nat, o: nat, k: nat)
    requires k < |inputs|
  {
    && o < k && inputs[k].Judged?
    && (k == o + 1 || inputs[k - 1].Unknown? || inputs[k - 1].active)
    && (inputs[k].critical
        || (c.graceCritical > 0.0 && PresentFrom(inputs, f, o, inputs[k].ts - c.graceCritical)))
  }

  ghost predicate CrossedBefore(c: Config, inputs: seq<Input>, f: nat, o: nat, n: nat)
    requires n <= |inputs|
  {
    exists k :: o < k < n && Crosses(c, inputs, f, o, k)
  }

  lemma PresentFromStart(inputs: seq<Input>, f: nat, o: nat, t: real)
    requires f <= o < |inputs| && Timely(inputs) && inputs[o].Judged? && inputs[o].active
    requires PresentStart(inputs, f, o).Some?
    ensures PresentFrom(inputs, f, o, t) <==> inputs[PresentStart(inputs, f, o).value].ts <= t
  {
    StretchIsPresent(inputs, f, o);
    forall i | f <= i < o && PresentSince(inputs, i, o)
      ensures inputs[PresentStart(inputs, f, o).value].ts <= inputs[i].ts
    {
      StretchStartsFirst(inputs, f, i, o);
    }
  }

  // The incident that is running after n inputs opened at o, after a wait since f; m is its machine.
  ghost predicate RunsSince(c: Config, inputs: seq<Input>, n: nat, f: nat, o: nat, m: Machine)
    requires n <= |inputs|
  {
    && o < n && f <= o && inputs[o].Judged? && inputs[o].active && IsOpen(m)
    && PresentStart(inputs, f, o).Some? && m.pendingSince == inputs[PresentStart(inputs, f, o).value].ts
    && (m.critical <==> OpenedCritical(c, inputs, f, o) || CrossedBefore(c, inputs, f, o, n))
  }

  lemma OpensWithSeverity(c: Config, inputs: seq<Input>, o: nat, m: Machine, f: nat)
    requires o < |inputs| && Timely(inputs) && Represents(inputs, o, m, Waiting(f))
    requires ConfirmsHazard(c, inputs, f, o)
    ensures RunsSince(c, inputs, o + 1, f, o, Step(c, m, inputs[o]).0)
  {
    HazardAtStart(c, inputs, f, o);
    PresentFromStart(inputs, f, o, inputs[o].ts - c.graceCritical);
  }

  lemma RunsOnWithSeverity(c: Config, inputs: seq<Input>, n: nat, m: Machine, f: nat, o: nat)
    requires n < |inputs| && Timely(inputs) && Represents(inputs, n, m, Opened(o)) && RunsSince(c, inputs, n, f, o, m)
    requires !ConfirmsClear(c, inputs, o, n)
    ensures RunsSince(c, inputs, n + 1, f, o, Step(c, m, inputs[n]).0)
  {
    ClearAtStart(c, inputs, o, n);
    if inputs[n].Judged? { PresentFromStart(inputs, f, o, inputs[n].ts - c.graceCritical); }
    assert m.Active? <==> n == o + 1 || inputs[n - 1].Unknown? || inputs[n - 1].active;
    assert CrossedBefore(c, inputs, f, o, n + 1) <==>
             CrossedBefore(c, inputs, f, o, n) || Crosses(c, inputs, f, o, n) by {
      if CrossedBefore(c, inputs, f, o, n) {
        var k :| o < k < n && Crosses(c, inputs, f, o, k);
        assert o < k < n + 1;
      }
    }
  }

  // What is known of the incident that is running after n inputs, if there is one.
  ghost predicate SeverityKnown(c: Config, inputs: seq<Input>, n: nat)
    requires n <= |inputs|
  {
    StageAfter(c, inputs, n).Opened? ==>
      var o := StageAfter(c, inputs, n).at;
      && o < n && StageAfter(c, inputs, o).Waiting?
      && RunsSince(c, inputs, n, StageAfter(c, inputs, o).since, o, After(c, inputs, n))
  }

  lemma SeverityOneMore(c: Config, inputs: seq<Input>, n: nat)
    requires n < |inputs| && Timely(inputs) && SeverityKnown(c, inputs, n)
    requires Represents(inputs, n, After(c, inputs, n), StageAfter(c, inputs, n))
    ensures SeverityKnown(c, inputs, n + 1)
  {
    var s, m := StageAfter(c, inputs, n), After(c, inputs, n);
    assert StageAfter(c, inputs, n + 1) == NextStage(c, inputs, n, s);
    assert After(c, inputs, n + 1) == Step(c, m, inputs[n]).0;
    if s.Waiting? {
      if ConfirmsHazard(c, inputs, s.since, n) { OpensWithSeverity(c, inputs, n, m, s.since); }
    } else if s.Opened? {
      if !ConfirmsClear(c, inputs, s.at, n) {
        RunsOnWithSeverity(c, inputs, n, m, StageAfter(c, inputs, s.at).since, s.at);
      }
    }
  }

  lemma {:induction false} SeverityAlwaysKnown(c: Config, inputs: seq<Input>, n: nat)
    requires n <= |inputs| && Timely(inputs)
    ensures SeverityKnown(c, inputs, n)
  {
    if n > 0 {
      SeverityAlwaysKnown(c, inputs, n - 1);
      MachineRefinesStages(c, inputs, n - 1);
      SeverityOneMore(c, inputs, n - 1);
    }
  }

  // The severity of a running incident, for every input sequence whose time never goes back: it is
  // critical exactly when it opened so, or some reading since then, at which the incident was not
  // clearing, crossed the critical threshold or the critical grace time.
  lemma SeverityExactly(c: Config, inputs: seq<Input>, n: nat)
    requires n <= |inputs| && Timely(inputs) && StageAfter(c, inputs, n).Opened?
    ensures var o := StageAfter(c, inputs, n).at;
            && o < n && StageAfter(c, inputs, o).Waiting? && IsOpen(After(c, inputs, n)) && inputs[o].Judged?
            && (After(c, inputs, n).critical <==>
                  || OpenedCritical(c, inputs, StageAfter(c, inputs, o).since, o)
                  || CrossedBefore(c, inputs, StageAfter(c, inputs, o).since, o, n))
  {
    SeverityAlwaysKnown(c, inputs, n);
  }

  // An incident opens as critical exactly when the present stretch it opens on has lasted the
  // critical grace time, or, without a warning grace time, when the reading it opens on is critical.
  lemma OpensWithSeverityExactly(c: Config, inputs: seq<Input>, j: nat)
    requires j < |inputs| && Timely(inputs) && OutputAt(c, inputs, j).opens
    ensures StageAfter(c, inputs, j).Waiting? && inputs[j].Judged? && IsOpen(After(c, inputs, j + 1))
    ensures After(c, inputs, j + 1).critical <==> OpenedCritical(c, inputs, StageAfter(c, inputs, j).since, j)
  {
    OpensExactly(c, inputs, j);
    SeverityExactly(c, inputs, j + 1);
  }

  // --- Spacing -------------------------------------------------------------------------

  // Time of the latest opening among the first n inputs.
  ghost function LatestOpening(c: Config, inputs: seq<Input>, n: nat): Option<real>
    requires n <= |inputs|
  {
    if n == 0 then None
    else if OutputAt(c, inputs, n - 1).opens && inputs[n - 1].Judged? then Some(inputs[n - 1].ts)
    else LatestOpening(c, inputs, n - 1)
  }

  ghost predicate NotAfter(inputs: seq<Input>, n: nat, t: real)
    requires n <= |inputs|
  {
    forall k :: n <= k < |inputs| && inputs[k].Judged? ==> t <= inputs[k].ts
  }

  // How far the machine is from its latest opening at time t.
  ghost predicate FarFrom(c: Config, m: Machine, t: real, inputs: seq<Input>, n: nat)
    requires n <= |inputs|
  {
    match m
    case Idle => NotAfter(inputs, n, t + c.clearingHold + c.cooldown)
    case Pending(since) => since >= t + c.clearingHold + c.cooldown && NotAfter(inputs, n, since)
    case Active(_, _, _) => NotAfter(inputs, n, t)
    case Clearing(_, _, since, _) => since >= t && NotAfter(inputs, n, since)
    case Closed(since, _) => since >= t + c.clearingHold
  }

  lemma {:induction false} StaysFar(c: Config, inputs: seq<Input>, n: nat)
    requires n <= |inputs| && Timely(inputs)
    ensures LatestOpening(c, inputs, n).Some? ==>
              FarFrom(c, After(c, inputs, n), LatestOpening(c, inputs, n).value, inputs, n)
    ensures LatestOpening(c, inputs, n).None? ==> After(c, inputs, n).Idle? || After(c, inputs, n).Pending?
  {
    if n > 0 { StaysFar(c, inputs, n - 1); }
  }

  // Two successive openings are at least clearing hold + cooldown + opening delay apart.
  lemma OpeningsAreSpaced(c: Config, inputs: seq<Input>, j: nat)
    requires j < |inputs| && Timely(inputs) && OutputAt(c, inputs, j).opens
    requires LatestOpening(c, inputs, j).Some?
    ensures inputs[j].Judged?
    ensures inputs[j].ts - LatestOpening(c, inputs, j).value >= c.clearingHold + c.cooldown + OpeningDelay(c)
  {
    StaysFar(c, inputs, j);
  }
}
