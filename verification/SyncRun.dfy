/** Runs of one sync: the workflow that decides between a full and an incremental
    pass, fetches from the provider, writes to the destination and saves the
    watermark; any activity may fail, with or without having taken effect, and the
    world moves on between any two of them. */
module SyncRun {
  import opened SyncTypes
  import opened DestinationWriter

  datatype RunStrategy = Full | Incremental
  datatype RunStatus = Running | Success | Failure
  datatype LogEntry = LogEntry(strategy: RunStrategy, status: RunStatus)

  datatype Sync = Sync(entity: bool, strategy: Strategy, state: SyncState, performFullRefresh: bool)

  /** Whose rows the sync writes. */
  datatype Job = Job(tenant: Tenant, objectName: Option<string>)

  // ---- Which pass to run

  function Successes(log: seq<LogEntry>): seq<RunStrategy> {
    if log == [] then []
    else
      var init := Successes(log[..|log| - 1]);
      if log[|log| - 1].status == Success then init + [log[|log| - 1].strategy] else init
  }

  /** The log is in the order the runs were started. */
  predicate LastNRunsAreAllIncremental(log: seq<LogEntry>, n: nat) {
    var s := Successes(log);
    |s| >= n && forall i :: |s| - n <= i < |s| ==> s[i] == Incremental
  }

  predicate ShouldDoFullSyncAfterNIncrementals(sync: Sync, log: seq<LogEntry>) {
    && !sync.entity && sync.strategy.strategyType == FullThenIncremental
    && sync.strategy.fullSyncEveryNIncrementals.Some? && sync.strategy.fullSyncEveryNIncrementals.value > 0
    && LastNRunsAreAllIncremental(log, sync.strategy.fullSyncEveryNIncrementals.value)
  }

  function GetSyncStrategy(sync: Sync, log: seq<LogEntry>): RunStrategy {
    if sync.strategy.strategyType == FullOnly || sync.performFullRefresh then Full
    else match sync.state
      case Created => Full
      case Live(FullPhase, InProgress, _) => Full
      case Live(_, _, _) => if ShouldDoFullSyncAfterNIncrementals(sync, log) then Full else Incremental
  }

  // ---- Watermarks

  function Watermark(state: SyncState): Option<int> {
    if state.Live? then state.maxLastModifiedAtMs else None
  }

  function OrZero(max: Option<int>): int {
    if max.Some? then max.value else 0
  }

  /** What the pass asks the provider for: everything when there is no watermark,
      and also when the watermark is 0. */
  function UpdatedAfter(sync: Sync, strategy: RunStrategy): Option<int> {
    if strategy == Full || OrZero(Watermark(sync.state)) == 0 then None else Watermark(sync.state)
  }

  function BeginState(sync: Sync, strategy: RunStrategy): SyncState {
    match strategy
    case Full => Live(FullPhase, InProgress, None)
    case Incremental => Live(IncrementalPhase, InProgress, Watermark(sync.state))
  }

  function Max(a: int, b: int): int {
    if a >= b then a else b
  }

  function DoneState(sync: Sync, strategy: RunStrategy, max: Option<int>): SyncState {
    match strategy
    case Full => Live(FullPhase, Done, if sync.strategy.strategyType == FullOnly then None else Some(OrZero(max)))
    case Incremental => Live(IncrementalPhase, Done, Some(Max(OrZero(max), OrZero(Watermark(sync.state)))))
  }

  // ---- The provider

  type Source = map<int, Row>

  /** A stream of the source as it was, with everything modified after the given
      time. A record may come more than once, and then also in older versions; it
      may come without having to. */
  ghost predicate IsStream(source: Source, after: Option<int>, stream: seq<Record>) {
    && (forall r :: r in stream ==>
          && r.id in source && Record(r.id, source[r.id]) in stream
          && (r.row == source[r.id] || r.row.lastModified < source[r.id].lastModified))
    && (forall id :: id in source && (after.Some? ==> source[id].lastModified > after.value) ==> Record(id, source[id]) in stream)
  }

  // ---- The machine

  /** Where the workflow is. `sync` is what it read at the start; `source` and
      `clock` are the provider when the records were fetched. */
  datatype Pc =
    | Idle
    | GotSync(sync: Sync)
    | Decided(sync: Sync, strategy: RunStrategy)
    | Started(sync: Sync, strategy: RunStrategy)
    | Syncing(sync: Sync, strategy: RunStrategy)
    | Writing(sync: Sync, strategy: RunStrategy, source: Source, clock: int, stream: seq<Record>)
    | Synced(sync: Sync, strategy: RunStrategy, source: Source, clock: int, max: Option<int>)
    | Saved(sync: Sync, strategy: RunStrategy, source: Source, clock: int)
    | Cleared(sync: Sync, strategy: RunStrategy, source: Source, clock: int)
    | Failing

  datatype World = World(
    job: Job,
    sync: Sync,
    log: seq<LogEntry>,
    fulls: nat, // full passes completed so far
    source: Source,
    clock: int,
    dest: Table,
    apiReads: multiset<Record>, // versions that API calls have read and not written yet
    pc: Pc)

  predicate Ours(job: Job, k: Key) {
    k.tenant == job.tenant && k.objectName == job.objectName
  }

  /** The world moves on: records are created, edited (with a later stamp than any
      before) and removed at the provider, other syncs write their own rows, and the
      configured strategy is stored. */
  ghost predicate Environment(w: World, w': World) {
    && w.clock <= w'.clock
    && (forall id :: id in w'.source ==>
          || (id in w.source && w'.source[id] == w.source[id])
          || w.clock < w'.source[id].lastModified <= w'.clock)
    && (forall k :: Ours(w.job, k) ==> Unchanged(w.dest, w'.dest, k))
    && w' == w.(source := w'.source, clock := w'.clock, dest := w'.dest, sync := w.sync.(strategy := w'.sync.strategy))
  }

  /** Someone triggers a run by hand, with a full refresh or without: what was stored
      before is overwritten either way. */
  ghost predicate Trigger(w: World, w': World, performFullRefresh: bool) {
    w' == w.(sync := w.sync.(performFullRefresh := performFullRefresh))
  }

  function OurKey(job: Job, id: int): Key {
    Key(job.tenant, job.objectName, id)
  }

  // An API call that has created or updated a record reads it back from the provider
  // and upserts it into the rows of the sync, whatever they hold by then.

  ghost predicate ApiRead(w: World, w': World) {
    exists id :: id in w.source && w' == w.(apiReads := w.apiReads + multiset{Record(id, w.source[id])})
  }

  ghost predicate ApiUpsert(w: World, w': World, r: Record) {
    r in w.apiReads && w' == w.(apiReads := w.apiReads - multiset{r}, dest := w.dest[OurKey(w.job, r.id) := r.row])
  }

  /** A step of anyone but the workflow. */
  ghost predicate Others(w: World, w': World) {
    Environment(w, w') || ApiRead(w, w') || (exists r :: ApiUpsert(w, w', r)) || (exists full :: Trigger(w, w', full))
  }

  function Finish(log: seq<LogEntry>, status: RunStatus): seq<LogEntry>
    requires log != []
  {
    log[|log| - 1 := log[|log| - 1].(status := status)]
  }

  function Deletes(job: Job, after: Option<int>): bool {
    ShouldDeleteRecords(after.None?, job.tenant.providerName)
  }

  /** An activity, run to completion. */
  ghost predicate Activity(w: World, w': World) {
    match w.pc
    case Idle => w' == w.(pc := GotSync(w.sync))
    case GotSync(sync) => w' == w.(pc := Decided(sync, GetSyncStrategy(sync, w.log)))
    case Decided(sync, strategy) => w' == w.(log := w.log + [LogEntry(strategy, Running)], pc := Started(sync, strategy))
    case Started(sync, strategy) =>
      w' == w.(sync := w.sync.(state := BeginState(sync, strategy)), pc := Syncing(sync, strategy))
    case Syncing(sync, strategy) =>
      && w'.pc.Writing? && IsStream(w.source, UpdatedAfter(sync, strategy), w'.pc.stream)
      && w' == w.(pc := Writing(sync, strategy, w.source, w.clock, w'.pc.stream))
    case Writing(sync, strategy, source, clock, stream) =>
      var deletes := Deletes(w.job, UpdatedAfter(sync, strategy));
      || (&& w'.pc.Synced? && IsMax(stream, w'.pc.max)
          && Written(w.dest, w'.dest, w.job.tenant, w.job.objectName, stream, deletes)
          && w' == w.(dest := w'.dest, pc := Synced(sync, strategy, source, clock, w'.pc.max)))
      || (&& Attempted(w.dest, w'.dest, w.job.tenant, w.job.objectName, stream, deletes) // to be retried
          && w' == w.(dest := w'.dest, pc := Syncing(sync, strategy)))
    case Synced(sync, strategy, source, clock, max) =>
      w' == w.(sync := w.sync.(state := DoneState(sync, strategy, max)),
               fulls := if strategy == Full then w.fulls + 1 else w.fulls,
               pc := Saved(sync, strategy, source, clock))
    case Saved(sync, strategy, source, clock) =>
      w' == w.(sync := w.sync.(performFullRefresh := false), pc := Cleared(sync, strategy, source, clock))
    case Cleared(_, _, _, _) => w.log != [] && w' == w.(log := Finish(w.log, Success), pc := Idle)
    case Failing => w.log != [] && w' == w.(log := Finish(w.log, Failure), pc := Idle)
  }

  /** Where an exception leads: into the catch block, or out of the workflow. */
  predicate InTry(pc: Pc) {
    pc.Started? || pc.Syncing? || pc.Writing? || pc.Synced? || pc.Saved?
  }

  /** An activity fails for good, with or without having taken effect, or the
      workflow is terminated. */
  ghost predicate Interrupted(w: World, w': World) {
    exists mid :: (mid == w || Activity(w, mid)) && (w' == mid.(pc := Idle) || (InTry(w.pc) && w' == mid.(pc := Failing)))
  }

  ghost predicate Step(w: World, w': World) {
    Others(w, w') || Activity(w, w') || Interrupted(w, w')
  }

  /** A sync that has just been created. */
  ghost predicate Start(w: World) {
    && w.sync.state == Created && !w.sync.performFullRefresh && w.log == [] && w.fulls == 0 && w.apiReads == multiset{} && w.pc == Idle
    && forall id :: id in w.source ==> w.source[id].lastModified <= w.clock
  }

  ghost predicate Run(run: seq<World>) {
    run != [] && Start(run[0]) && forall i :: 0 < i < |run| ==> Step(run[i - 1], run[i])
  }

  // ---- What kind of step it is

  /** What others change: never the state of the sync, the log or the workflow. */
  lemma OthersKeep(w: World, w': World)
    requires Others(w, w')
    ensures w.clock <= w'.clock
    ensures w' == w.(source := w'.source, clock := w'.clock, dest := w'.dest, apiReads := w'.apiReads,
                     sync := w.sync.(strategy := w'.sync.strategy, performFullRefresh := w'.sync.performFullRefresh))
  {
  }

  lemma ActivityKeeps(w: World, w': World)
    requires Activity(w, w')
    ensures w'.job == w.job && w'.source == w.source && w'.clock == w.clock && w'.apiReads == w.apiReads
  {
    hide IsStream, Written, Attempted, IsMax, BeginState, DoneState, GetSyncStrategy, UpdatedAfter, Finish;
  }

  lemma WhatInterrupts(w: World, w': World) returns (mid: World)
    requires Interrupted(w, w')
    ensures mid == w || Activity(w, mid)
    ensures w' == mid.(pc := Idle) || (InTry(w.pc) && w' == mid.(pc := Failing))
  {
    hide Activity;
    mid :| (mid == w || Activity(w, mid)) && (w' == mid.(pc := Idle) || (InTry(w.pc) && w' == mid.(pc := Failing)));
  }
}
