/** A full pass at least every N incremental ones. */
module SyncRunRhythm {
  import opened SyncTypes
  import opened DestinationWriter
  import opened SyncRun

  // ---- The log of successes

  lemma SuccessesOfRunning(log: seq<LogEntry>, strategy: RunStrategy)
    ensures Successes(log + [LogEntry(strategy, Running)]) == Successes(log)
  {
    assert (log + [LogEntry(strategy, Running)])[..|log|] == log;
  }

  lemma SuccessesOfFinish(log: seq<LogEntry>, status: RunStatus)
    requires log != [] && log[|log| - 1].status == Running
    ensures Successes(Finish(log, status)) ==
            if status == Success then Successes(log) + [log[|log| - 1].strategy] else Successes(log)
  {
    var log' := Finish(log, status);
    assert log'[..|log'| - 1] == log[..|log| - 1];
  }

  /** Any n + 1 consecutive entries contain a full pass. */
  ghost predicate FullInEveryWindow(s: seq<RunStrategy>, n: nat) {
    forall i :: 0 <= i && i + n < |s| ==> FullWithin(s, i, n)
  }

  ghost predicate FullWithin(s: seq<RunStrategy>, i: int, n: nat)
    requires 0 <= i && i + n < |s|
  {
    exists k :: i <= k <= i + n && s[k] == Full
  }

  predicate LastAllIncremental(s: seq<RunStrategy>, n: nat) {
    |s| >= n && forall i :: |s| - n <= i < |s| ==> s[i] == Incremental
  }

  lemma WindowsGrow(s: seq<RunStrategy>, n: nat, x: RunStrategy)
    requires FullInEveryWindow(s, n) && (x == Full || !LastAllIncremental(s, n))
    ensures FullInEveryWindow(s + [x], n)
  {
    var r := s + [x];
    forall i | 0 <= i && i + n < |r| ensures FullWithin(r, i, n) {
      if i + n < |s| {
        assert FullWithin(s, i, n);
        var k :| i <= k <= i + n && s[k] == Full;
        assert r[k] == Full;
      } else if x == Full {
        assert r[i + n] == Full;
      } else {
        var k :| |s| - n <= k < |s| && s[k] != Incremental;
        assert r[k] == Full;
      }
    }
  }

  // ---- Over all runs

  /** The sync is configured to do a full pass every n incremental ones. */
  predicate Every(sync: Sync, n: nat) {
    !sync.entity && sync.strategy == Strategy(FullThenIncremental, Some(n))
  }

  ghost predicate RunInLog(w: World, strategy: RunStrategy, n: nat) {
    && w.log != [] && w.log[|w.log| - 1] == LogEntry(strategy, Running)
    && (strategy == Incremental ==> !LastAllIncremental(Successes(w.log), n))
  }

  ghost predicate RhythmInv(w: World, n: nat) {
    && FullInEveryWindow(Successes(w.log), n)
    && match w.pc {
      case Idle => true
      case GotSync(sync) => Every(sync, n)
      case Decided(_, strategy) => strategy == Incremental ==> !LastAllIncremental(Successes(w.log), n)
      case Started(_, strategy) => RunInLog(w, strategy, n)
      case Syncing(_, strategy) => RunInLog(w, strategy, n)
      case Writing(_, strategy, _, _, _) => RunInLog(w, strategy, n)
      case Synced(_, strategy, _, _, _) => RunInLog(w, strategy, n)
      case Saved(_, strategy, _, _) => RunInLog(w, strategy, n)
      case Cleared(_, strategy, _, _) => RunInLog(w, strategy, n)
      case Failing => w.log != [] && w.log[|w.log| - 1].status == Running
    }
  }

  lemma DecideKeepsRhythm(w: World, w': World, n: nat)
    requires n > 0 && RhythmInv(w, n) && w.pc.GotSync? && Activity(w, w')
    ensures RhythmInv(w', n)
  {
    hide FullInEveryWindow;
    assert GetSyncStrategy(w.pc.sync, w.log) == Incremental ==> !LastNRunsAreAllIncremental(w.log, n);
    hide GetSyncStrategy, Successes;
  }

  lemma StartKeepsRhythm(w: World, w': World, n: nat)
    requires RhythmInv(w, n) && w.pc.Decided? && Activity(w, w')
    ensures RhythmInv(w', n)
  {
    SuccessesOfRunning(w.log, w.pc.strategy);
    hide Successes, FullInEveryWindow, LastAllIncremental;
  }

  lemma FinishKeepsRhythm(w: World, w': World, n: nat)
    requires RhythmInv(w, n) && (w.pc.Cleared? || w.pc.Failing?) && Activity(w, w')
    ensures RhythmInv(w', n)
  {
    SuccessesOfFinish(w.log, if w.pc.Cleared? then Success else Failure);
    if w.pc.Cleared? {
      WindowsGrow(Successes(w.log), n, w.pc.strategy);
    }
    hide Successes, FullInEveryWindow, LastAllIncremental, Finish;
  }

  /** The activities in between do not touch the log. */
  lemma MiddleKeepsRhythm(w: World, w': World, n: nat)
    requires Every(w.sync, n) && RhythmInv(w, n) && Activity(w, w')
    requires w.pc.Idle? || InTry(w.pc)
    ensures RhythmInv(w', n)
  {
    hide Successes, FullInEveryWindow, LastAllIncremental, IsStream, IsMax, Written, Attempted, BeginState, DoneState, UpdatedAfter, Deletes;
  }

  lemma ActivityKeepsRhythm(w: World, w': World, n: nat)
    requires n > 0 && Every(w.sync, n) && RhythmInv(w, n) && Activity(w, w')
    ensures RhythmInv(w', n)
  {
    hide RhythmInv, Activity, Every;
    match w.pc {
      case GotSync(_) => DecideKeepsRhythm(w, w', n);
      case Decided(_, _) => StartKeepsRhythm(w, w', n);
      case Cleared(_, _, _, _) => FinishKeepsRhythm(w, w', n);
      case Failing => FinishKeepsRhythm(w, w', n);
      case _ => MiddleKeepsRhythm(w, w', n);
    }
  }

  lemma StepKeepsRhythm(w: World, w': World, n: nat)
    requires n > 0 && Every(w.sync, n) && RhythmInv(w, n) && Step(w, w')
    ensures RhythmInv(w', n)
  {
    if Activity(w, w') {
      hide *;
      ActivityKeepsRhythm(w, w', n);
    } else if Others(w, w') {
      OthersKeep(w, w');
      hide Others, Activity, FullInEveryWindow, LastAllIncremental, Successes;
    } else {
      hide Activity, Others, Interrupted, RhythmInv;
      var mid := WhatInterrupts(w, w');
      if mid != w {
        ActivityKeepsRhythm(w, mid, n);
      }
      ThrownKeepsRhythm(w, mid, w', n);
    }
  }

  lemma ThrownKeepsRhythm(w: World, mid: World, w': World, n: nat)
    requires RhythmInv(w, n) && RhythmInv(mid, n) && (mid == w || Activity(w, mid))
    requires w' == mid.(pc := Idle) || (InTry(w.pc) && w' == mid.(pc := Failing))
    ensures RhythmInv(w', n)
  {
    hide FullInEveryWindow, LastAllIncremental, Successes, IsStream, Written, Attempted;
  }

  lemma {:induction false} RhythmAlways(run: seq<World>, n: nat, i: nat)
    requires Run(run) && i < |run| && n > 0 && forall k :: 0 <= k < |run| ==> Every(run[k].sync, n)
    ensures RhythmInv(run[i], n)
  {
    if i > 0 {
      hide RhythmInv, Step, Every, Start;
      RhythmAlways(run, n, i - 1);
      StepKeepsRhythm(run[i - 1], run[i], n);
    }
  }

  /** With a full pass wanted every n incremental ones, any n + 1 consecutive
      successful runs contain a full one, whatever failed in between. */
  lemma AtMostNIncrementals(run: seq<World>, n: nat, i: nat, from: nat)
    requires Run(run) && i < |run| && n > 0 && forall k :: 0 <= k < |run| ==> Every(run[k].sync, n)
    requires from + n < |Successes(run[i].log)|
    ensures exists k :: from <= k <= from + n && Successes(run[i].log)[k] == Full
  {
    hide Run, Every, Successes;
    RhythmAlways(run, n, i);
    assert FullWithin(Successes(run[i].log), from, n);
  }

  // ---- Without failures

  /** A full run, then n incremental ones, and so on. */
  function Expected(j: nat, n: nat): RunStrategy {
    if j % (n + 1) == 0 then Full else Incremental
  }

  /** All runs have succeeded, each full or incremental as its position says. */
  ghost predicate Periodic(log: seq<LogEntry>, n: nat) {
    forall j :: 0 <= j < |log| ==> log[j] == LogEntry(Expected(j, n), Success)
  }

  lemma {:induction false} AllSucceed(log: seq<LogEntry>)
    requires forall j :: 0 <= j < |log| ==> log[j].status == Success
    ensures |Successes(log)| == |log|
    ensures forall j :: 0 <= j < |log| ==> Successes(log)[j] == log[j].strategy
  {
    if log != [] {
      AllSucceed(log[..|log| - 1]);
    }
  }

  /** The last n runs were all incremental exactly when a whole period is over. */
  lemma PeriodIsOver(log: seq<LogEntry>, n: nat)
    requires n > 0 && Periodic(log, n) && log != []
    ensures LastNRunsAreAllIncremental(log, n) <==> |log| % (n + 1) == 0
  {
    AllSucceed(log);
    var s, m := Successes(log), n + 1;
    assert |log| == |log| / m * m + |log| % m;
    if |log| % m == 0 {
      MultipleAtLeast(|log|, m);
      forall i | |s| - n <= i < |s| ensures s[i] == Incremental {
        NotMultiple(i, |log| / m, m);
      }
    } else {
      var k := |log| / m * m;
      Multiple(|log| / m, m);
      assert s[k] == Full && |s| - n <= k < |s|;
    }
  }

  lemma MultipleAtLeast(a: nat, m: nat)
    requires m > 0 && a > 0 && a % m == 0
    ensures a >= m
  {
  }

  lemma Multiple(q: nat, m: nat)
    requires m > 0
    ensures q * m % m == 0
  {
    assert q * m == m * q + 0;
    ModUnique(q * m, q, 0, m);
  }

  lemma NotMultiple(i: int, q: int, m: nat)
    requires m > 1 && q * m - (m - 1) <= i < q * m
    ensures i % m != 0
  {
    ModUnique(i, q - 1, i - (q - 1) * m, m);
  }

  lemma ModUnique(a: int, q: int, r: int, m: nat)
    requires m > 0 && 0 <= r < m && a == q * m + r
    ensures a % m == r
  {
    var d := a / m - q;
    assert a == a / m * m + a % m;
    assert d * m == r - a % m;
    assert d >= 1 ==> d * m >= m;
    assert d <= -1 ==> d * m <= -(m as int);
  }

  /** Between two runs: the first run is still to come, or the last one is done. */
  ghost predicate BetweenRuns(state: SyncState, log: seq<LogEntry>, n: nat) {
    && Periodic(log, n)
    && if log == [] then state == Created else state.Live? && state.status == Done
  }

  ghost predicate NextInLog(log: seq<LogEntry>, strategy: RunStrategy, n: nat) {
    && log != [] && Periodic(log[..|log| - 1], n)
    && strategy == Expected(|log| - 1, n) && log[|log| - 1] == LogEntry(strategy, Running)
  }

  ghost predicate PeriodInv(w: World, n: nat) {
    match w.pc
    case Idle => BetweenRuns(w.sync.state, w.log, n)
    case GotSync(sync) =>
      BetweenRuns(w.sync.state, w.log, n) && sync.state == w.sync.state && Every(sync, n) && !sync.performFullRefresh
    case Decided(_, strategy) => Periodic(w.log, n) && strategy == Expected(|w.log|, n)
    case Started(_, strategy) => NextInLog(w.log, strategy, n)
    case Syncing(_, strategy) => NextInLog(w.log, strategy, n)
    case Writing(_, strategy, _, _, _) => NextInLog(w.log, strategy, n)
    case Synced(_, strategy, _, _, _) => NextInLog(w.log, strategy, n)
    case Saved(_, strategy, _, _) => NextInLog(w.log, strategy, n) && w.sync.state.Live? && w.sync.state.status == Done
    case Cleared(_, strategy, _, _) => NextInLog(w.log, strategy, n) && w.sync.state.Live? && w.sync.state.status == Done
    case Failing => false
  }

  lemma NextIsExpected(sync: Sync, log: seq<LogEntry>, n: nat)
    requires n > 0 && BetweenRuns(sync.state, log, n) && Every(sync, n) && !sync.performFullRefresh
    ensures GetSyncStrategy(sync, log) == Expected(|log|, n)
  {
    if log != [] {
      PeriodIsOver(log, n);
    }
    hide LastNRunsAreAllIncremental, Periodic;
  }

  lemma FinishIsPeriodic(log: seq<LogEntry>, strategy: RunStrategy, n: nat)
    requires NextInLog(log, strategy, n)
    ensures Periodic(Finish(log, Success), n)
  {
    hide Expected;
    var init := log[..|log| - 1];
    forall j | 0 <= j < |log| ensures Finish(log, Success)[j] == LogEntry(Expected(j, n), Success) {
      if j < |log| - 1 {
        assert init[j] == log[j];
      }
    }
  }

  lemma StartIsNext(log: seq<LogEntry>, n: nat)
    requires Periodic(log, n)
    ensures NextInLog(log + [LogEntry(Expected(|log|, n), Running)], Expected(|log|, n), n)
  {
    hide Periodic, Expected;
    assert (log + [LogEntry(Expected(|log|, n), Running)])[..|log|] == log;
  }

  lemma ActivityKeepsPeriod(w: World, w': World, n: nat)
    requires n > 0 && Every(w.sync, n) && !w.sync.performFullRefresh && PeriodInv(w, n) && Activity(w, w')
    ensures PeriodInv(w', n)
  {
    match w.pc {
      case GotSync(sync) => NextIsExpected(sync, w.log, n);
      case Decided(_, strategy) => StartIsNext(w.log, n);
      case Cleared(_, strategy, _, _) => FinishIsPeriodic(w.log, strategy, n);
      case _ =>
    }
    hide GetSyncStrategy, Expected, Periodic, NextInLog, IsStream, IsMax, Written, Attempted, UpdatedAfter, Deletes;
  }

  lemma OthersKeepPeriod(w: World, w': World, n: nat)
    requires PeriodInv(w, n) && Others(w, w')
    ensures PeriodInv(w', n)
  {
    OthersKeep(w, w');
    hide Others, NextInLog, Periodic;
  }

  ghost predicate WorksAt(run: seq<World>, k: nat)
    requires 0 < k < |run|
  {
    Others(run[k - 1], run[k]) || Activity(run[k - 1], run[k])
  }

  /** Configured for n, never asked for a refresh, and nothing fails. */
  ghost predicate RunsSmoothly(run: seq<World>, n: nat) {
    && (forall k :: 0 <= k < |run| ==> Every(run[k].sync, n) && !run[k].sync.performFullRefresh)
    && (forall k :: 0 < k < |run| ==> WorksAt(run, k))
  }

  lemma {:induction false} PeriodAlways(run: seq<World>, n: nat, i: nat)
    requires Run(run) && i < |run| && n > 0 && RunsSmoothly(run, n)
    ensures PeriodInv(run[i], n)
  {
    if i > 0 {
      PeriodAlways(run, n, i - 1);
      assert WorksAt(run, i) && Every(run[i - 1].sync, n) && !run[i - 1].sync.performFullRefresh;
      hide Run, RunsSmoothly, PeriodInv, Activity, Others, Every;
      if Others(run[i - 1], run[i]) {
        OthersKeepPeriod(run[i - 1], run[i], n);
      } else {
        ActivityKeepsPeriod(run[i - 1], run[i], n);
      }
    }
  }

  /** Without failures and forced refreshes the log between two runs is a full run, then
      n incremental ones, and so on; and so is the choice of the run in progress. */
  lemma SmoothRunsArePeriodic(run: seq<World>, n: nat, i: nat)
    requires Run(run) && i < |run| && n > 0 && RunsSmoothly(run, n)
    ensures run[i].pc.Idle? ==> forall j :: 0 <= j < |run[i].log| ==>
              run[i].log[j] == LogEntry(if j % (n + 1) == 0 then Full else Incremental, Success)
    ensures run[i].pc.Decided? ==> run[i].pc.strategy == if |run[i].log| % (n + 1) == 0 then Full else Incremental
  {
    hide Run, RunsSmoothly;
    PeriodAlways(run, n, i);
  }
}
