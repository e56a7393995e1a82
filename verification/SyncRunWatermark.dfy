/** What a pass saves as its watermark, over all runs: it moves on past everything the
    pass has written, and only as far as that. */
module SyncRunWatermark {
  import opened SyncTypes
  import opened DestinationWriter
  import opened SyncRun
  import opened SyncRunHistory

  predicate HasStamp(stream: seq<Record>, stamp: int) {
    exists r :: r in stream && r.row.lastModified == stamp
  }

  /** From a stored watermark to the next, over a stream: no record of the stream is later,
      an incremental pass does not go back, and nothing is made up. */
  ghost predicate MovesOn(stored: Option<int>, next: Option<int>, strategy: RunStrategy, stream: seq<Record>) {
    && next.Some?
    && (forall r :: r in stream ==> r.row.lastModified <= next.value)
    && (strategy == Incremental ==> next.value >= OrZero(stored))
    && (stream == [] ==> next.value == 0 || (strategy == Incremental && next == stored))
    && (stream != [] ==> HasStamp(stream, next.value) || (strategy == Incremental && next.value == OrZero(stored)))
  }

  /** The saved state: without a watermark exactly when the sync only ever does full
      passes and this is one. */
  ghost predicate SavedState(stored: Option<int>, state: SyncState, sync: Sync, strategy: RunStrategy, stream: seq<Record>) {
    && state.Live? && state.status == Done && state.phase == (if strategy == Full then FullPhase else IncrementalPhase)
    && if strategy == Full && sync.strategy.strategyType == FullOnly then state.maxLastModifiedAtMs == None
       else MovesOn(stored, state.maxLastModifiedAtMs, strategy, stream)
  }

  lemma MaxHasStamp(stream: seq<Record>, max: Option<int>)
    requires IsMax(stream, max)
    ensures stream == [] <==> max.None?
    ensures max.Some? ==> HasStamp(stream, max.value) && forall r :: r in stream ==> r.row.lastModified <= max.value
  {
  }

  lemma DoneIsSaved(sync: Sync, strategy: RunStrategy, stream: seq<Record>, max: Option<int>)
    requires IsMax(stream, max)
    ensures SavedState(Watermark(BeginState(sync, strategy)), DoneState(sync, strategy, max), sync, strategy, stream)
  {
    MaxHasStamp(stream, max);
    hide IsMax, HasStamp;
  }

  /** The pass that is synced at j has written the stream it fetched at w. */
  ghost predicate WroteAt(run: seq<World>, w: nat, j: nat)
    requires w < j < |run|
  {
    && run[w].pc.Writing? && run[j].pc.Synced?
    && run[w].pc.sync == run[j].pc.sync && run[w].pc.strategy == run[j].pc.strategy
    && IsMax(run[w].pc.stream, run[j].pc.max)
    && forall k :: w < k <= j ==> run[k].pc == run[j].pc
  }

  lemma SyncedFrom(w: World, w': World)
    requires Step(w, w') && w'.pc.Synced?
    ensures w.pc == w'.pc ||
            (w.pc.Writing? && w.pc.sync == w'.pc.sync && w.pc.strategy == w'.pc.strategy && IsMax(w.pc.stream, w'.pc.max))
  {
    if Others(w, w') {
      OthersKeep(w, w');
    }
    hide Others, Written, Attempted, IsStream, IsMax;
  }

  lemma StepAt(run: seq<World>, i: nat)
    requires Run(run) && i < |run|
    ensures if i == 0 then run[0].pc == Idle else Step(run[i - 1], run[i])
  {
    hide Step;
  }

  lemma {:induction false} SyncedWrote(run: seq<World>, j: nat)
    requires Run(run) && j < |run| && run[j].pc.Synced?
    ensures exists w: nat :: w < j && WroteAt(run, w, j)
  {
    hide Run, Step, IsMax;
    StepAt(run, j);
    SyncedFrom(run[j - 1], run[j]);
    if run[j - 1].pc == run[j].pc {
      SyncedWrote(run, j - 1);
      var w: nat :| w < j - 1 && WroteAt(run, w, j - 1);
      assert WroteAt(run, w, j);
    } else {
      assert WroteAt(run, j - 1, j);
    }
  }

  lemma SavesDone(w: World, w': World)
    requires Step(w, w') && w.pc.Synced? && w'.sync.state != w.sync.state
    ensures w'.sync.state == DoneState(w.pc.sync, w.pc.strategy, w.pc.max)
  {
    if Others(w, w') {
      OthersKeep(w, w');
    }
    hide Others, DoneState;
  }

  lemma SyncedState(w: World)
    requires PhaseInv(w) && w.pc.Synced?
    ensures w.sync.state == BeginState(w.pc.sync, w.pc.strategy)
  {
  }

  /** Whenever the state of the sync is saved after a write, also when the answer is lost:
      the watermark moves on from the one stored before over the stream just written. */
  lemma SavedWatermark(run: seq<World>, i: nat)
    requires Run(run) && 0 < i < |run| && run[i - 1].pc.Synced? && run[i].sync.state != run[i - 1].sync.state
    ensures exists w: nat :: w < i - 1 && WroteAt(run, w, i - 1)
              && SavedState(Watermark(run[i - 1].sync.state), run[i].sync.state, run[w].pc.sync, run[w].pc.strategy, run[w].pc.stream)
  {
    hide Run, Step, SavedState, IsMax, DoneState, BeginState, PhaseInv;
    StepAt(run, i);
    SyncedWrote(run, i - 1);
    PhaseAlways(run, i - 1);
    SyncedState(run[i - 1]);
    SavesDone(run[i - 1], run[i]);
    var w: nat :| w < i - 1 && WroteAt(run, w, i - 1);
    DoneIsSaved(run[w].pc.sync, run[w].pc.strategy, run[w].pc.stream, run[i - 1].pc.max);
  }
}
