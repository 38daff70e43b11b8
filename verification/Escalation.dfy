// Repeat escalation (backend/app/edge/safety/escalation.py): the third WARNING of a rule inside
// the rolling window opens as CRITICAL.
module Escalation {
  import opened Prelude

  // Machine and rule name.
  type Key = (string, string)

  datatype Settings = Settings(appliesTo: set<string>, windowSeconds: real, countThreshold: nat)

  const DEFAULTS := Settings({"seatbelt", "proximity", "tilt", "overload"}, 1800.0, 3)

  // Only WARNINGs of the listed rules are counted.
  predicate Counts(s: Settings, key: Key, critical: bool) { key.1 in s.appliesTo && !critical }

  // The entries kept when a new one arrives.
  function Recent(window: seq<real>, cutoff: real): seq<real> {
    if window != [] && window[0] < cutoff then Recent(window[1..], cutoff) else window
  }

  // All windows after one call, and whether the incident opens as CRITICAL.
  function Recorded(s: Settings, windows: map<Key, seq<real>>, key: Key, ts: real, critical: bool)
    : (map<Key, seq<real>>, bool)
  {
    if Counts(s, key, critical) then
      var window := Recent(At(windows, key), ts - s.windowSeconds) + [ts];
      (windows[key := window], |window| >= s.countThreshold)
    else (windows, false)
  }

  // How many of the times lie at or after the cutoff.
  function CountFrom(times: seq<real>, cutoff: real): nat {
    if times == [] then 0
    else CountFrom(times[..|times| - 1], cutoff) + if times[|times| - 1] >= cutoff then 1 else 0
  }

  ghost predicate Ascending(times: seq<real>) {
    var n := |times|;
    n < 2 || (times[n - 2] <= times[n - 1] && Ascending(times[..n - 1]))
  }

  lemma {:induction false} AscendingPairs(times: seq<real>, i: nat, j: nat)
    requires Ascending(times) && i <= j < |times|
    ensures times[i] <= times[j]
    decreases |times|
  {
    if j < |times| - 1 {
      AscendingPairs(times[..|times| - 1], i, j);
    } else if i < j {
      AscendingPairs(times[..|times| - 1], i, j - 1);
    }
  }

  function At(m: map<Key, seq<real>>, k: Key): seq<real> { if k in m then m[k] else [] }

  // The window is what is left of the full log after dropping times too old for its newest entry.
  ghost predicate IsTrimmed(window: seq<real>, log: seq<real>, seconds: real) {
    && |window| <= |log| && window == log[|log| - |window|..]
    && (Ascending(log) ==> forall i :: 0 <= i < |log| - |window| ==> log[i] < log[|log| - 1] - seconds)
  }

  ghost predicate AllTrimmed(windows: map<Key, seq<real>>, log: map<Key, seq<real>>, seconds: real) {
    forall k :: IsTrimmed(At(windows, k), At(log, k), seconds)
  }

  // Drop what fell out of the window, then append.
  method Trimmed(recent: seq<real>, ghost before: seq<real>, ts: real, seconds: real) returns (window: seq<real>)
    requires IsTrimmed(recent, before, seconds) && seconds >= 0.0
    ensures IsTrimmed(window, before + [ts], seconds)
    ensures Ascending(before + [ts]) ==> |window| == CountFrom(before + [ts], ts - seconds)
    ensures window == Recent(recent, ts - seconds) + [ts]
  {
    var cutoff := ts - seconds;
    window := recent;
    LaterCutoff(window, before, ts, seconds);
    while window != [] && window[0] < cutoff
      invariant |window| <= |before| && window == before[|before| - |window|..]
      invariant Recent(window, cutoff) == Recent(recent, cutoff)
      invariant Ascending(before + [ts]) ==> forall i :: 0 <= i < |before| - |window| ==> before[i] < cutoff
      decreases |window|
    {
      window := window[1..];
    }
    window := window + [ts];
    if Ascending(before + [ts]) { TrimmedIsRecent(window, before + [ts], cutoff); }
  }

  lemma OneTrimmed(windows: map<Key, seq<real>>, log: map<Key, seq<real>>, key: Key, window: seq<real>, all: seq<real>,
                   seconds: real)
    requires AllTrimmed(windows, log, seconds) && IsTrimmed(window, all, seconds)
    ensures AllTrimmed(windows[key := window], log[key := all], seconds)
  {
    var ws, l := windows[key := window], log[key := all];
    forall k ensures IsTrimmed(At(ws, k), At(l, k), seconds) {
      if k != key { assert IsTrimmed(At(windows, k), At(log, k), seconds); }
    }
  }

  // Trimming a suffix of the log leaves a suffix from the cutoff on.
  lemma {:induction false} RecentIsSuffix(window: seq<real>, log: seq<real>, cutoff: real)
    requires |window| <= |log| && window == log[|log| - |window|..]
    requires forall i :: 0 <= i < |log| - |window| ==> log[i] < cutoff
    ensures var r := Recent(window, cutoff);
            && |r| <= |log| && r == log[|log| - |r|..] && (r != [] ==> r[0] >= cutoff)
            && forall i :: 0 <= i < |log| - |r| ==> log[i] < cutoff
    decreases |window|
  {
    if window != [] && window[0] < cutoff {
      assert window[1..] == log[|log| - |window| + 1..];
      RecentIsSuffix(window[1..], log, cutoff);
    }
  }

  // One recorded WARNING: the window stays the trimmed log, and it holds the log's entries from the
  // cutoff on.
  lemma RecordingTrims(window: seq<real>, log: seq<real>, ts: real, seconds: real)
    requires seconds >= 0.0 && IsTrimmed(window, log, seconds) && Ascending(log + [ts])
    ensures var kept := Recent(window, ts - seconds) + [ts];
            IsTrimmed(kept, log + [ts], seconds) && |kept| == CountFrom(log + [ts], ts - seconds)
  {
    LaterCutoff(window, log, ts, seconds);
    RecentIsSuffix(window, log, ts - seconds);
    var r := Recent(window, ts - seconds);
    SuffixSnoc(r, log, ts, ts - seconds);
    TrimmedIsRecent(r + [ts], log + [ts], ts - seconds);
  }

  lemma SuffixSnoc(r: seq<real>, log: seq<real>, ts: real, cutoff: real)
    requires |r| <= |log| && r == log[|log| - |r|..] && forall i :: 0 <= i < |log| - |r| ==> log[i] < cutoff
    ensures r + [ts] == (log + [ts])[|log| + 1 - |r + [ts]|..]
    ensures forall i :: 0 <= i < |log| + 1 - |r + [ts]| ==> (log + [ts])[i] < cutoff
  {
  }

  // A WARNING opens as CRITICAL exactly when its rule repeats and the window is full with it.
  lemma RaisedExactly(s: Settings, windows: map<Key, seq<real>>, key: Key, ts: real, log: seq<real>)
    requires s.windowSeconds >= 0.0
    requires key.1 in s.appliesTo ==> IsTrimmed(At(windows, key), log, s.windowSeconds) && Ascending(log + [ts])
    ensures Recorded(s, windows, key, ts, false).1
       <==> key.1 in s.appliesTo && CountFrom(log + [ts], ts - s.windowSeconds) >= s.countThreshold
  {
    if key.1 in s.appliesTo { RecordingTrims(At(windows, key), log, ts, s.windowSeconds); }
  }

  class RepeatEscalationTracker {
    const settings: Settings
    var windows: map<Key, seq<real>>
    ghost var log: map<Key, seq<real>>      // every recorded WARNING since the last reset

    ghost predicate Valid()
      reads this
    {
      settings.windowSeconds >= 0.0 && AllTrimmed(windows, log, settings.windowSeconds)
    }

    constructor (settings: Settings)
      requires settings.windowSeconds >= 0.0
      ensures Valid() && log == map[] && this.settings == settings
    {
      this.settings := settings;
      windows, log := map[], map[];
    }

    // True exactly when this WARNING makes enough recorded ones inside the window that ends now,
    // provided the times of this rule never went back.
    method RecordAndCheck(key: Key, ts: real, critical: bool) returns (escalate: bool)
      requires Valid()
      modifies this
      ensures Valid()
      ensures log == if Counts(settings, key, critical) then old(log)[key := At(old(log), key) + [ts]] else old(log)
      ensures (windows, escalate) == Recorded(settings, old(windows), key, ts, critical)
      ensures Counts(settings, key, critical) && Ascending(At(log, key)) ==>
                (escalate <==> CountFrom(At(log, key), ts - settings.windowSeconds) >= settings.countThreshold)
    {
      if !Counts(settings, key, critical) {
        return false;
      }
      var count := Record(key, ts);
      escalate := count >= settings.countThreshold;
    }

    // Trim and append; returns how many entries the window holds.
    method Record(key: Key, ts: real) returns (count: nat)
      requires Valid()
      modifies this
      ensures Valid()
      ensures log == old(log)[key := At(old(log), key) + [ts]]
      ensures windows == old(windows)[key := Recent(At(old(windows), key), ts - settings.windowSeconds) + [ts]]
      ensures count == |At(windows, key)|
      ensures Ascending(At(old(log), key) + [ts]) ==>
                count == CountFrom(At(old(log), key) + [ts], ts - settings.windowSeconds)
    {
      var window := Trimmed(At(windows, key), At(log, key), ts, settings.windowSeconds);
      count := |window|;
      ghost var all := At(log, key) + [ts];
      OneTrimmed(windows, log, key, window, all, settings.windowSeconds);
      windows := windows[key := window];
      log := log[key := all];
    }

    method ResetMachine(machineId: string)
      requires Valid()
      modifies this
      ensures Valid()
      ensures forall k :: k in log <==> k in old(log) && k.0 != machineId
      ensures forall k :: k in log ==> log[k] == old(log)[k]
    {
      windows := map k | k in windows && k.0 != machineId :: windows[k];
      log := map k | k in log && k.0 != machineId :: log[k];
      forall k ensures IsTrimmed(At(windows, k), At(log, k), settings.windowSeconds) {
        assert IsTrimmed(At(old(windows), k), At(old(log), k), settings.windowSeconds);
      }
    }
  }

  // A newer entry only moves the cutoff forward.
  lemma LaterCutoff(window: seq<real>, before: seq<real>, ts: real, seconds: real)
    requires IsTrimmed(window, before, seconds)
    ensures Ascending(before + [ts]) ==> forall i :: 0 <= i < |before| - |window| ==> before[i] < ts - seconds
  {
    var all := before + [ts];
    if Ascending(all) && before != [] {
      assert all[..|all| - 1] == before;
    }
  }

  lemma TrimmedIsRecent(window: seq<real>, all: seq<real>, cutoff: real)
    requires Ascending(all) && 0 < |window| <= |all| && window == all[|all| - |window|..]
    requires forall i :: 0 <= i < |all| - |window| ==> all[i] < cutoff
    requires window[0] >= cutoff
    ensures CountFrom(all, cutoff) == |window|
  {
    forall i | 0 <= i < |window| ensures window[i] >= cutoff {
      AscendingPairs(all, |all| - |window|, |all| - |window| + i);
    }
    CountOfTrimmed(window, all, cutoff);
  }

  lemma {:induction false} CountNone(times: seq<real>, cutoff: real)
    requires forall i :: 0 <= i < |times| ==> times[i] < cutoff
    ensures CountFrom(times, cutoff) == 0
  {
    if times != [] { CountNone(times[..|times| - 1], cutoff); }
  }

  lemma {:induction false} CountOfTrimmed(window: seq<real>, log: seq<real>, cutoff: real)
    requires |window| <= |log| && window == log[|log| - |window|..]
    requires forall i :: 0 <= i < |log| - |window| ==> log[i] < cutoff
    requires forall i :: 0 <= i < |window| ==> window[i] >= cutoff
    ensures CountFrom(log, cutoff) == |window|
  {
    if window == [] {
      CountNone(log, cutoff);
    } else {
      CountOfTrimmed(window[..|window| - 1], log[..|log| - 1], cutoff);
    }
  }
}
