/** Phases, watermarks, forced refreshes and the rhythm of full passes, over all
    runs of a sync. */
module SyncRunHistory {
  import opened SyncTypes
  import opened DestinationWriter
  import opened SyncRun

  // ---- Phases

  predicate FullInterrupted(state: SyncState) {
    state.Live? && state.phase == FullPhase && state.status == InProgress
  }

  /** A full pass has been completed before. */
  predicate PastFull(state: SyncState) {
    state.Live? && !(state.phase == FullPhase && state.status == InProgress)
  }

  ghost predicate PhaseInv(w: World) {
    && (PastFull(w.sync.state) ==> w.fulls > 0)
    && match w.pc {
      case Idle => true
      case GotSync(sync) => sync.state == w.sync.state
      case Decided(sync, strategy) => sync.state == w.sync.state && Allowed(sync, strategy)
      case Started(sync, strategy) => sync.state == w.sync.state && Allowed(sync, strategy)
      case Syncing(sync, strategy) => w.sync.state == BeginState(sync, strategy) && Allowed(sync, strategy)
      case Writing(sync, strategy, _, _, _) => w.sync.state == BeginState(sync, strategy) && Allowed(sync, strategy)
      case Synced(sync, strategy, _, _, _) => w.sync.state == BeginState(sync, strategy) && Allowed(sync, strategy)
      case Saved(sync, strategy, _, _) => w.sync.state.Live? && w.sync.state.status == Done && Allowed(sync, strategy)
      case Cleared(sync, strategy, _, _) => w.sync.state.Live? && w.sync.state.status == Done && Allowed(sync, strategy)
      case Failing => true
    }
  }

  /** An incremental pass is only chosen after a full one, and not over a request. */
  predicate Allowed(sync: Sync, strategy: RunStrategy) {
    strategy == Incremental ==>
      PastFull(sync.state) && !sync.performFullRefresh && sync.strategy.strategyType != FullOnly
  }

  lemma ActivityKeepsPhase(w: World, w': World)
    requires PhaseInv(w) && Activity(w, w')
    ensures PhaseInv(w')
  {
  }

  lemma OthersKeepPhase(w: World, w': World)
    requires PhaseInv(w) && Others(w, w')
    ensures PhaseInv(w')
  {
    OthersKeep(w, w');
    hide Others, BeginState;
  }

  lemma StepKeepsPhase(w: World, w': World)
    requires PhaseInv(w) && Step(w, w')
    ensures PhaseInv(w')
  {
    hide Activity, Others, Interrupted, PhaseInv;
    if Others(w, w') {
      OthersKeepPhase(w, w');
    } else if Activity(w, w') {
      ActivityKeepsPhase(w, w');
    } else {
      var mid := WhatInterrupts(w, w');
      if mid != w {
        ActivityKeepsPhase(w, mid);
      }
      PhaseWithoutPc(mid, w');
    }
  }

  lemma PhaseWithoutPc(w: World, w': World)
    requires PhaseInv(w) && (w' == w.(pc := Idle) || w' == w.(pc := Failing))
    ensures PhaseInv(w')
  {
  }

  lemma {:induction false} PhaseAlways(run: seq<World>, i: nat)
    requires Run(run) && i < |run|
    ensures PhaseInv(run[i])
  {
    if i > 0 {
      PhaseAlways(run, i - 1);
      hide PhaseInv, Step, Start;
      StepKeepsPhase(run[i - 1], run[i]);
    }
  }

  /** What a single step can do to the state of the sync. */
  ghost predicate StateChange(w: World, w': World) {
    && (w.sync.state != Created ==> w'.sync.state != Created)
    && (w'.fulls == w.fulls || CompletesFull(w, w'))
    && (FullInterrupted(w.sync.state) ==> FullInterrupted(w'.sync.state) || CompletesFull(w, w'))
    && (|| Watermark(w'.sync.state) == Watermark(w.sync.state)
        || (w.pc.Started? && w.pc.strategy == Full)
        || w.pc.Synced?)
    && (w.pc.Synced? && w.pc.strategy == Incremental ==> OrZero(Watermark(w'.sync.state)) >= OrZero(Watermark(w.sync.state)))
  }

  lemma ActivityState(w: World, w': World)
    requires PhaseInv(w) && Activity(w, w')
    ensures StateChange(w, w')
  {
  }

  lemma StateStep(w: World, w': World)
    requires PhaseInv(w) && Step(w, w')
    ensures StateChange(w, w')
  {
    if Others(w, w') {
      OthersKeep(w, w');
      hide PhaseInv, Activity, Others;
    } else if Activity(w, w') {
      hide *;
      ActivityState(w, w');
    } else {
      hide Activity, Others, Interrupted, PhaseInv;
      var mid := WhatInterrupts(w, w');
      if mid != w {
        ActivityState(w, mid);
      }
    }
  }

  /** A full pass is saved as done. */
  predicate CompletesFull(w: World, w': World) {
    && w.pc.Synced? && w.pc.strategy == Full && w'.fulls == w.fulls + 1
    && w'.sync.state.Live? && w'.sync.state.phase == FullPhase && w'.sync.state.status == Done
  }

  /** Phase `incremental` is only ever reached after a completed full pass. */
  lemma {:induction false} IncrementalFollowsFull(run: seq<World>, i: nat)
    requires Run(run) && i < |run|
    requires PastFull(run[i].sync.state) || run[i].fulls > 0
    ensures exists j :: 0 < j <= i && CompletesFull(run[j - 1], run[j])
  {
    PhaseAlways(run, i);
    assert run[i].fulls > 0;
    if i > 0 {
      PhaseAlways(run, i - 1);
      StateStep(run[i - 1], run[i]);
      hide Step, PhaseInv;
      if CompletesFull(run[i - 1], run[i]) {
      } else {
        IncrementalFollowsFull(run, i - 1);
      }
    }
  }

  lemma {:induction false} CreatedIsLeftForGood(run: seq<World>, i: nat, j: nat)
    requires Run(run) && i <= j < |run| && run[i].sync.state != Created
    ensures run[j].sync.state != Created
  {
    hide Step, PhaseInv, Start;
    if i < j {
      CreatedIsLeftForGood(run, i, j - 1);
      PhaseAlways(run, j - 1);
      StateStep(run[j - 1], run[j]);
    }
  }

  function StrategyAt(pc: Pc): Option<RunStrategy> {
    match pc
    case Idle => None
    case GotSync(_) => None
    case Failing => None
    case Decided(_, s) => Some(s)
    case Started(_, s) => Some(s)
    case Syncing(_, s) => Some(s)
    case Writing(_, s, _, _, _) => Some(s)
    case Synced(_, s, _, _, _) => Some(s)
    case Saved(_, s, _, _) => Some(s)
    case Cleared(_, s, _, _) => Some(s)
  }

  lemma InterruptedDecides(w: World)
    requires PhaseInv(w) && FullInterrupted(w.sync.state)
    ensures StrategyAt(w.pc) != Some(Incremental)
  {
  }

  lemma {:induction false} FullsGrow(run: seq<World>, i: nat, j: nat)
    requires Run(run) && i <= j < |run|
    ensures run[i].fulls <= run[j].fulls
  {
    hide Step, PhaseInv, Start;
    if i < j {
      FullsGrow(run, i, j - 1);
      PhaseAlways(run, j - 1);
      StateStep(run[j - 1], run[j]);
    }
  }

  /** After an interrupted full pass every pass is full until one completes. */
  lemma {:induction false} InterruptedFullIsRetried(run: seq<World>, i: nat, j: nat)
    requires Run(run) && i <= j < |run|
    requires FullInterrupted(run[i].sync.state) && run[j].fulls == run[i].fulls
    ensures FullInterrupted(run[j].sync.state) && StrategyAt(run[j].pc) != Some(Incremental)
  {
    hide Step, PhaseInv, FullInterrupted, Start;
    if i < j {
      FullsGrow(run, i, j - 1);
      PhaseAlways(run, j - 1);
      StateStep(run[j - 1], run[j]);
      InterruptedFullIsRetried(run, i, j - 1);
    }
    PhaseAlways(run, j);
    InterruptedDecides(run[j]);
  }

  // ---- Syncs that go on incrementally

  /** Nothing asks for a full pass: none is forced, full syncs alone are not configured, and
      there is no number of incrementals, or none that applies to the sync. */
  predicate AsksForNoFull(sync: Sync) {
    && !sync.performFullRefresh && sync.strategy.strategyType == FullThenIncremental
    && (sync.entity || sync.strategy.fullSyncEveryNIncrementals.None? || sync.strategy.fullSyncEveryNIncrementals.value <= 0)
  }

  ghost predicate GoesOn(w: World) {
    && PastFull(w.sync.state) && StrategyAt(w.pc) != Some(Full)
    && (w.pc.GotSync? ==> AsksForNoFull(w.pc.sync) && PastFull(w.pc.sync.state))
  }

  lemma ActivityGoesOn(w: World, w': World)
    requires GoesOn(w) && AsksForNoFull(w.sync) && Activity(w, w')
    ensures GoesOn(w')
  {
    hide IsStream, Written, Attempted, IsMax, UpdatedAfter, Finish, Deletes, Successes;
  }

  lemma StepGoesOn(w: World, w': World)
    requires GoesOn(w) && AsksForNoFull(w.sync) && Step(w, w')
    ensures GoesOn(w')
  {
    hide Activity, Others, Interrupted, AsksForNoFull;
    if Others(w, w') {
      OthersKeep(w, w');
    } else if Activity(w, w') {
      ActivityGoesOn(w, w');
    } else {
      var mid := WhatInterrupts(w, w');
      if mid != w {
        ActivityGoesOn(w, mid);
      }
    }
  }

  /** Once a full pass is past, a sync for which nothing asks for one goes on with
      incremental passes alone, whatever fails; for an entity a configured number of
      incrementals asks for nothing. */
  lemma {:induction false} StaysIncremental(run: seq<World>, i: nat, j: nat)
    requires Run(run) && i <= j < |run| && run[i].pc == Idle && PastFull(run[i].sync.state)
    requires forall k :: i <= k <= j ==> AsksForNoFull(run[k].sync)
    ensures StrategyAt(run[j].pc) != Some(Full) && PastFull(run[j].sync.state)
    ensures GoesOn(run[j])
  {
    hide Step, Start, AsksForNoFull, PastFull;
    if i < j {
      StaysIncremental(run, i, j - 1);
      hide GoesOn;
      StepGoesOn(run[j - 1], run[j]);
    }
  }

  // ---- The watermark

  ghost predicate NoFullBetween(run: seq<World>, i: nat, j: nat)
    requires i <= j < |run|
  {
    forall k :: i <= k < j ==> StrategyAt(run[k].pc) != Some(Full)
  }

  /** Without full passes in between the watermark never decreases, and it only
      changes where an incremental pass saves its result: a run that fails before
      keeps it. */
  lemma {:induction false} WatermarkOnlyGrows(run: seq<World>, i: nat, j: nat)
    requires Run(run) && i <= j < |run| && NoFullBetween(run, i, j)
    ensures OrZero(Watermark(run[i].sync.state)) <= OrZero(Watermark(run[j].sync.state))
    ensures (forall k :: i <= k < j ==> !run[k].pc.Synced?) ==> Watermark(run[i].sync.state) == Watermark(run[j].sync.state)
  {
    hide Step, PhaseInv, Start;
    if i < j {
      WatermarkOnlyGrows(run, i, j - 1);
      PhaseAlways(run, j - 1);
      StateStep(run[j - 1], run[j]);
      assert StrategyAt(run[j - 1].pc) != Some(Full);
    }
  }

  // ---- Forced refreshes

  /** The workflow clears the arguments for the next run; its answer may get lost. */
  ghost predicate Clears(w: World, w': World) {
    w.pc.Saved? && exists mid :: Activity(w, mid) && (w' == mid || w' == mid.(pc := Idle) || w' == mid.(pc := Failing))
  }

  ghost predicate ClearsAt(run: seq<World>, k: nat)
    requires 0 < k < |run|
  {
    Clears(run[k - 1], run[k])
  }

  /** A trigger that asks for a full refresh, or one that does not. */
  ghost predicate TriggersAt(run: seq<World>, k: nat, performFullRefresh: bool)
    requires 0 < k < |run|
  {
    Trigger(run[k - 1], run[k], performFullRefresh)
  }

  ghost predicate NoneClears(run: seq<World>, i: nat, j: nat)
    requires i <= j < |run|
  {
    forall k :: i < k <= j ==> !ClearsAt(run, k)
  }

  ghost predicate NoPlainTrigger(run: seq<World>, i: nat, j: nat)
    requires i <= j < |run|
  {
    forall k :: i < k <= j ==> !TriggersAt(run, k, false)
  }

  /** What was requested at i has been neither cleared nor overwritten by j. */
  ghost predicate Undisturbed(run: seq<World>, i: nat, j: nat)
    requires i <= j < |run|
  {
    NoneClears(run, i, j) && NoPlainTrigger(run, i, j)
  }

  /** A request was recorded at k, or was there at i already. */
  ghost predicate RequestedFrom(run: seq<World>, i: nat, k: nat)
    requires i <= k < |run|
  {
    if k == i then run[i].sync.performFullRefresh else TriggersAt(run, k, true)
  }

  lemma ActivityFlag(w: World, w': World)
    requires Activity(w, w')
    ensures w'.sync.performFullRefresh == (w.sync.performFullRefresh && !w.pc.Saved?)
    ensures w'.pc != w.pc
  {
    hide IsStream, Written, Attempted, IsMax, BeginState, DoneState, GetSyncStrategy, UpdatedAfter, Finish;
  }

  lemma OthersFlag(w: World, w': World)
    requires Others(w, w') && w'.sync.performFullRefresh != w.sync.performFullRefresh
    ensures Trigger(w, w', w'.sync.performFullRefresh)
  {
  }

  /** Only a trigger and a run that clears its arguments change the request. */
  lemma FlagStep(w: World, w': World)
    requires Step(w, w')
    ensures w'.sync.performFullRefresh ==> w.sync.performFullRefresh || Trigger(w, w', true)
    ensures !w'.sync.performFullRefresh && w.sync.performFullRefresh ==> Trigger(w, w', false) || Clears(w, w')
    ensures Clears(w, w') || Trigger(w, w', false) ==> !w'.sync.performFullRefresh
    ensures Trigger(w, w', true) ==> w'.sync.performFullRefresh
  {
    if Others(w, w') && w'.sync.performFullRefresh != w.sync.performFullRefresh {
      OthersFlag(w, w');
    }
    hide Others, Activity;
    if Clears(w, w') {
      var mid :| Activity(w, mid) && (w' == mid || w' == mid.(pc := Idle) || w' == mid.(pc := Failing));
      ActivityFlag(w, mid);
    } else if Activity(w, w') {
      ActivityFlag(w, w');
    } else if Interrupted(w, w') {
      var mid := WhatInterrupts(w, w');
      if mid != w {
        ActivityFlag(w, mid);
      }
    }
  }

  lemma RequestStep(run: seq<World>, j: nat)
    requires Run(run) && 0 < j < |run|
    ensures run[j].sync.performFullRefresh ==> run[j - 1].sync.performFullRefresh || TriggersAt(run, j, true)
    ensures run[j].sync.performFullRefresh <==> (run[j - 1].sync.performFullRefresh && !ClearsAt(run, j) && !TriggersAt(run, j, false)) || TriggersAt(run, j, true)
    ensures run[j].sync.performFullRefresh ==> !ClearsAt(run, j) && !TriggersAt(run, j, false)
  {
    assert Step(run[j - 1], run[j]);
    hide Run, Step, Clears, Trigger;
    FlagStep(run[j - 1], run[j]);
  }

  lemma UndisturbedGrows(run: seq<World>, k: nat, j: nat)
    requires k < j < |run|
    ensures Undisturbed(run, k, j) <==> Undisturbed(run, k, j - 1) && !ClearsAt(run, j) && !TriggersAt(run, j, false)
  {
    hide ClearsAt, TriggersAt;
  }

  lemma UndisturbedNow(run: seq<World>, j: nat)
    requires j < |run|
    ensures Undisturbed(run, j, j)
  {
  }

  ghost predicate StandsFrom(run: seq<World>, i: nat, k: nat, j: nat)
    requires i <= k <= j < |run|
  {
    RequestedFrom(run, i, k) && Undisturbed(run, k, j)
  }

  /** Wherever runs are, at any later moment j a refresh is requested exactly when since
      the last request, at i or by a trigger after it, no run has cleared its arguments
      and no plain trigger has come in. */
  lemma {:induction false} RequestStandsIff(run: seq<World>, i: nat, j: nat)
    requires Run(run) && i <= j < |run|
    ensures run[j].sync.performFullRefresh <==> exists k :: i <= k <= j && StandsFrom(run, i, k, j)
  {
    hide Run, ClearsAt, TriggersAt, Undisturbed;
    UndisturbedNow(run, j);
    if i == j {
      assert StandsFrom(run, i, i, j) <==> run[j].sync.performFullRefresh;
    } else {
      RequestStep(run, j);
      RequestStandsIff(run, i, j - 1);
      forall k | i <= k < j ensures StandsFrom(run, i, k, j) <==> StandsFrom(run, i, k, j - 1) && !ClearsAt(run, j) && !TriggersAt(run, j, false) {
        UndisturbedGrows(run, k, j);
      }
      assert StandsFrom(run, i, j, j) <==> TriggersAt(run, j, true);
      hide StandsFrom;
      if run[j - 1].sync.performFullRefresh && !ClearsAt(run, j) && !TriggersAt(run, j, false) {
        var k :| i <= k <= j - 1 && StandsFrom(run, i, k, j - 1);
        assert StandsFrom(run, i, k, j);
      }
      forall k | i <= k <= j && StandsFrom(run, i, k, j) ensures run[j].sync.performFullRefresh {
        assert k < j ==> StandsFrom(run, i, k, j - 1);
      }
    }
  }

  /** From the creation of the sync on: the last request is that of a trigger. */
  lemma RequestIsATriggers(run: seq<World>, j: nat)
    requires Run(run) && j < |run|
    ensures run[j].sync.performFullRefresh <==> exists k :: 0 < k <= j && TriggersAt(run, k, true) && Undisturbed(run, k, j)
  {
    RequestStandsIff(run, 0, j);
    assert !run[0].sync.performFullRefresh;
    hide Run, TriggersAt, Undisturbed;
    if run[j].sync.performFullRefresh {
      var k :| 0 <= k <= j && StandsFrom(run, 0, k, j);
      assert TriggersAt(run, k, true) && Undisturbed(run, k, j);
    } else {
      forall k | 0 < k <= j && TriggersAt(run, k, true) ensures !Undisturbed(run, k, j) {
        assert !StandsFrom(run, 0, k, j);
      }
    }
  }

  predicate CopyForces(pc: Pc) {
    pc.Idle? || pc.Failing? || pc.sync.performFullRefresh
  }

  lemma ForcedStep(w: World, w': World)
    requires PhaseInv(w) && Step(w, w') && w.sync.performFullRefresh && CopyForces(w.pc) && w'.fulls == w.fulls
    ensures CopyForces(w'.pc)
    ensures w'.pc.Saved? ==> w.pc.Saved?
  {
    if Others(w, w') {
      OthersKeep(w, w');
      hide Others, PhaseInv;
    } else {
      hide Others;
    }
  }

  lemma ForcedDecides(w: World)
    requires PhaseInv(w) && CopyForces(w.pc)
    ensures StrategyAt(w.pc) != Some(Incremental)
  {
  }

  /** A refresh requested between runs: as long as no plain trigger comes in, every pass
      is full until one completes, and the request stays recorded until then. */
  lemma {:induction false} ForcedRefreshIsHonoured(run: seq<World>, i: nat, j: nat)
    requires Run(run) && i <= j < |run| && NoPlainTrigger(run, i, j)
    requires run[i].pc.Idle? && run[i].sync.performFullRefresh && run[j].fulls == run[i].fulls
    ensures run[j].sync.performFullRefresh && StrategyAt(run[j].pc) != Some(Incremental)
    ensures CopyForces(run[j].pc) && !run[j].pc.Saved?
  {
    hide Step, PhaseInv, Start;
    if i < j {
      FullsGrow(run, i, j - 1);
      FullsGrow(run, j - 1, j);
      ForcedRefreshIsHonoured(run, i, j - 1);
      PhaseAlways(run, j - 1);
      ForcedStep(run[j - 1], run[j]);
      FlagStep(run[j - 1], run[j]);
      assert TriggersAt(run, j, false) <==> Trigger(run[j - 1], run[j], false);
    }
    PhaseAlways(run, j);
    ForcedDecides(run[j]);
  }

  /** A request recorded at any moment i, and a moment e at which no run is in progress:
      until the next full pass completes, it stands exactly when no run has cleared it by
      e and no plain trigger has overwritten it; and as long as it stands every pass from
      e on is full. With no run in progress at i itself, e is i: then only a plain
      trigger is left to lose it. */
  lemma RequestIsHonouredIff(run: seq<World>, i: nat, e: nat, j: nat)
    requires Run(run) && i <= e <= j < |run| && run[i].sync.performFullRefresh
    requires run[e].pc.Idle? && run[j].fulls == run[e].fulls
    ensures Undisturbed(run, i, j) <==> NoneClears(run, i, e) && NoPlainTrigger(run, i, j)
    ensures Undisturbed(run, i, j) ==> run[j].sync.performFullRefresh && StrategyAt(run[j].pc) != Some(Incremental)
    ensures i == e ==> NoneClears(run, i, e)
    ensures run[j].sync.performFullRefresh <==>
            Undisturbed(run, i, j) || exists k :: i < k <= j && TriggersAt(run, k, true) && Undisturbed(run, k, j)
  {
    LastRequest(run, i, j);
    hide Run, ClearsAt, TriggersAt;
    if NoneClears(run, i, e) && NoPlainTrigger(run, i, j) {
      hide StandsFrom;
      assert StandsFrom(run, i, i, e) by { StandsAt(run, i, e); }
      RequestStandsIff(run, i, e);
      ForcedRefreshIsHonoured(run, e, j);
      NoneClearsAfter(run, e, j);
      assert NoneClears(run, i, j);
    }
  }

  lemma StandsAt(run: seq<World>, i: nat, e: nat)
    requires i <= e < |run| && run[i].sync.performFullRefresh && Undisturbed(run, i, e)
    ensures StandsFrom(run, i, i, e)
  {
  }

  lemma LastRequest(run: seq<World>, i: nat, j: nat)
    requires Run(run) && i <= j < |run| && run[i].sync.performFullRefresh
    ensures run[j].sync.performFullRefresh <==>
            Undisturbed(run, i, j) || exists k :: i < k <= j && TriggersAt(run, k, true) && Undisturbed(run, k, j)
  {
    RequestStandsIff(run, i, j);
    hide Run, TriggersAt, Undisturbed;
    assert StandsFrom(run, i, i, j) <==> Undisturbed(run, i, j);
    forall k | i < k <= j ensures StandsFrom(run, i, k, j) <==> TriggersAt(run, k, true) && Undisturbed(run, k, j) {
    }
  }

  /** While a request made with no run in progress stands, nothing is cleared. */
  lemma {:induction false} NoneClearsAfter(run: seq<World>, e: nat, j: nat)
    requires Run(run) && e <= j < |run| && NoPlainTrigger(run, e, j)
    requires run[e].pc.Idle? && run[e].sync.performFullRefresh && run[j].fulls == run[e].fulls
    ensures NoneClears(run, e, j)
  {
    forall k | e < k <= j ensures !ClearsAt(run, k) {
      FullsGrow(run, e, k);
      FullsGrow(run, k, j);
      assert NoPlainTrigger(run, e, k);
      ForcedRefreshIsHonoured(run, e, k);
      hide Run, ClearsAt, TriggersAt;
      RequestStep(run, k);
    }
  }

  /** A pass sees the request exactly when it stands at the moment the pass reads the
      sync, and then it is full. */
  lemma PassReadsRequest(run: seq<World>, m: nat)
    requires Run(run) && 0 < m < |run| && run[m - 1].pc.Idle? && Activity(run[m - 1], run[m])
    ensures run[m].pc.GotSync?
    ensures run[m].pc.sync.performFullRefresh <==> exists k :: 0 < k < m && TriggersAt(run, k, true) && Undisturbed(run, k, m - 1)
    ensures run[m].pc.sync.performFullRefresh ==> GetSyncStrategy(run[m].pc.sync, run[m].log) == Full
  {
    ReadsSync(run[m - 1], run[m]);
    hide *;
    RequestIsATriggers(run, m - 1);
  }

  lemma ReadsSync(w: World, w': World)
    requires w.pc.Idle? && Activity(w, w')
    ensures w'.pc == GotSync(w.sync) && w'.log == w.log
    ensures w.sync.performFullRefresh ==> GetSyncStrategy(w.sync, w.log) == Full
  {
  }

  lemma ActivityClears(w: World, w': World)
    requires Activity(w, w') && w'.pc.Cleared?
    ensures w.pc.Saved?
  {
    hide IsStream, Written, Attempted, IsMax, BeginState, DoneState, GetSyncStrategy, UpdatedAfter, Finish;
  }

  lemma ReachesCleared(w: World, w': World)
    requires Step(w, w') && w'.pc.Cleared? && !w.pc.Cleared?
    ensures Clears(w, w')
  {
    if Others(w, w') {
      OthersKeep(w, w');
    } else if Activity(w, w') {
      ActivityClears(w, w');
    }
    hide Others, Activity;
  }

  /** A run that succeeds has cleared its arguments on the way. */
  lemma {:induction false} SuccessClears(run: seq<World>, i: nat, c: nat)
    requires Run(run) && i <= c < |run| && !run[i].pc.Cleared? && run[c].pc.Cleared?
    ensures exists k :: i < k <= c && ClearsAt(run, k)
  {
    var w, w' := run[c - 1], run[c];
    assert Step(w, w');
    hide *;
    if w.pc.Cleared? {
      SuccessClears(run, i, c - 1);
    } else {
      ReachesCleared(w, w');
      assert ClearsAt(run, c) by { IsClear(run, c); }
    }
  }

  lemma IsClear(run: seq<World>, k: nat)
    requires 0 < k < |run| && Clears(run[k - 1], run[k])
    ensures ClearsAt(run, k)
  {
    hide Clears;
  }

  /** A request recorded while an incremental run is in progress is wiped when that run
      succeeds: no full pass has been made for it, and unless it is made again it does
      not come back. */
  lemma RequestDuringRunIsLost(run: seq<World>, i: nat, c: nat, j: nat)
    requires Run(run) && i <= c <= j < |run| && run[i].sync.performFullRefresh
    requires !run[i].pc.Cleared? && run[c].pc.Cleared?
    requires forall k :: i <= k < c ==> StrategyAt(run[k].pc) == Some(Incremental)
    ensures !Undisturbed(run, i, j) && run[c].fulls == run[i].fulls
    ensures run[j].sync.performFullRefresh ==> exists k :: i < k <= j && TriggersAt(run, k, true) && Undisturbed(run, k, j)
  {
    SuccessClears(run, i, c);
    LastRequest(run, i, j);
    hide ClearsAt, TriggersAt;
    NoFullCompletes(run, i, c);
  }

  lemma {:induction false} NoFullCompletes(run: seq<World>, i: nat, c: nat)
    requires Run(run) && i <= c < |run| && forall k :: i <= k < c ==> StrategyAt(run[k].pc) == Some(Incremental)
    ensures run[c].fulls == run[i].fulls
  {
    hide Step, PhaseInv, Start;
    if i < c {
      NoFullCompletes(run, i, c - 1);
      PhaseAlways(run, c - 1);
      StateStep(run[c - 1], run[c]);
      assert StrategyAt(run[c - 1].pc) == Some(Incremental);
    }
  }

  /** The first run of a sync whose provider has no records, activity by activity. */
  function FirstRun(k: nat): World {
    var sync := Sync(false, Strategy(FullThenIncremental, None), Created, false);
    var w0 := World(Job(Tenant("", "", ""), None), sync, [], 0, map[], 0, map[], multiset{}, Idle);
    var w3 := w0.(log := [LogEntry(Full, Running)], pc := Started(sync, Full));
    var w4 := w3.(sync := sync.(state := BeginState(sync, Full)), pc := Syncing(sync, Full));
    var w7 := w3.(sync := sync.(state := DoneState(sync, Full, None)), fulls := 1, pc := Saved(sync, Full, map[], 0));
    match k
    case 0 => w0
    case 1 => w0.(pc := GotSync(sync))
    case 2 => w0.(pc := Decided(sync, Full))
    case 3 => w3
    case 4 => w4
    case 5 => w4.(pc := Writing(sync, Full, map[], 0, []))
    case 6 => w4.(pc := Synced(sync, Full, map[], 0, None))
    case 7 => w7
    case 8 => w7.(pc := Cleared(sync, Full, map[], 0))
    case _ => w7.(log := [LogEntry(Full, Success)], pc := Idle)
  }

  lemma FirstRunSteps(k: nat)
    requires k < 9
    ensures Activity(FirstRun(k), FirstRun(k + 1))
  {
    if k == 5 {
      assert Copied(map[], map[], Tenant("", "", ""), None, []);
      assert Written(map[], map[], Tenant("", "", ""), None, [], true);
    }
    hide Written, Attempted;
  }

  function Asking(w: World, performFullRefresh: bool): World {
    w.(sync := w.sync.(performFullRefresh := performFullRefresh))
  }

  /** The first run, with a refresh requested just before it clears its arguments. */
  function Wiped(k: nat): World {
    if k <= 7 then FirstRun(k) else if k == 8 then Asking(FirstRun(7), true) else FirstRun(k - 1)
  }

  /** The first run, then a trigger for a full refresh, and then a plain one. */
  function Overwritten(k: nat): World {
    if k <= 9 then FirstRun(k) else Asking(FirstRun(9), k == 10)
  }

  lemma WipedStep(k: nat)
    requires k < 10
    ensures Step(Wiped(k), Wiped(k + 1))
  {
    if k < 7 || k > 8 {
      FirstRunSteps(if k < 7 then k else k - 1);
      hide Activity, FirstRun;
    } else if k == 7 {
      assert Trigger(Wiped(7), Wiped(8), true);
      hide FirstRun;
    } else {
      assert Activity(Wiped(8), Wiped(9));
      hide Activity, FirstRun;
    }
  }

  lemma OverwrittenStep(k: nat)
    requires k < 11
    ensures Step(Overwritten(k), Overwritten(k + 1))
  {
    if k < 9 {
      FirstRunSteps(k);
      hide Activity, FirstRun;
    } else {
      assert Trigger(Overwritten(k), Overwritten(k + 1), k == 9);
      hide FirstRun;
    }
  }

  /** A run from the creation of the sync on: a refresh requested during a run is gone
      after it, no plain trigger has come in, and the next pass will be incremental. */
  lemma RequestCanBeLost()
    ensures exists run: seq<World>, i: nat ::
              && Run(run) && 0 < i < |run| - 1 && TriggersAt(run, i, true) && NoPlainTrigger(run, i, |run| - 1)
              && var w := run[|run| - 1];
                 w.pc.Idle? && w.fulls == run[i].fulls && !w.sync.performFullRefresh && GetSyncStrategy(w.sync, w.log) == Incremental
  {
    var run := seq(11, k requires 0 <= k < 11 => Wiped(k));
    WipedFacts(run);
    hide Step, Trigger, FirstRun, Wiped, GetSyncStrategy, Start;
    forall k | 0 < k < |run| ensures Step(run[k - 1], run[k]) {
      WipedStep(k - 1);
    }
    assert Run(run);
  }

  lemma WipedFacts(run: seq<World>)
    requires |run| == 11 && forall k :: 0 <= k < 11 ==> run[k] == Wiped(k)
    ensures Start(run[0]) && TriggersAt(run, 8, true) && NoPlainTrigger(run, 8, 10)
    ensures var w := run[10]; w.pc.Idle? && w.fulls == run[8].fulls && !w.sync.performFullRefresh && GetSyncStrategy(w.sync, w.log) == Incremental
  {
  }

  /** Another one: the request is made with no run in progress and no run clears it, but
      a plain trigger comes in, and the next pass will be incremental. */
  lemma RequestCanBeOverwritten()
    ensures exists run: seq<World>, i: nat ::
              && Run(run) && 0 < i < |run| - 1 && TriggersAt(run, i, true) && run[i].pc.Idle? && NoneClears(run, i, |run| - 1)
              && var w := run[|run| - 1];
                 w.pc.Idle? && w.fulls == run[i].fulls && !w.sync.performFullRefresh && GetSyncStrategy(w.sync, w.log) == Incremental
  {
    var run := seq(12, k requires 0 <= k < 12 => Overwritten(k));
    OverwrittenFacts(run);
    hide Step, Trigger, FirstRun, Overwritten, GetSyncStrategy, Start, Clears;
    forall k | 0 < k < |run| ensures Step(run[k - 1], run[k]) {
      OverwrittenStep(k - 1);
    }
    assert Run(run);
  }

  lemma OverwrittenFacts(run: seq<World>)
    requires |run| == 12 && forall k :: 0 <= k < 12 ==> run[k] == Overwritten(k)
    ensures Start(run[0]) && TriggersAt(run, 10, true) && NoneClears(run, 10, 11) && run[10].pc.Idle?
    ensures var w := run[11]; w.pc.Idle? && w.fulls == run[10].fulls && !w.sync.performFullRefresh && GetSyncStrategy(w.sync, w.log) == Incremental
  {
  }
}
