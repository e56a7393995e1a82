/** Incremental syncing leaves the same data as full syncing. */
module SyncRunData {
  import opened SyncTypes
  import opened DestinationWriter
  import opened SyncRun

  predicate HasVersion(job: Job, dest: Table, id: int, row: Row) {
    OurKey(job, id) in dest && dest[OurKey(job, id)] == row
  }

  /** Every record of the source up to the stamp is in the destination as it is. */
  ghost predicate Holds(job: Job, dest: Table, source: Source, upTo: Option<int>) {
    forall id :: id in source && upTo.Some? && source[id].lastModified <= upTo.value ==> HasVersion(job, dest, id, source[id])
  }

  /** Every record of the source is in the destination as it is. */
  ghost predicate Delivered(job: Job, dest: Table, source: Source) {
    forall id :: id in source ==> HasVersion(job, dest, id, source[id])
  }

  /** No stamp is later than the clock. */
  ghost predicate Clocked(source: Source, clock: int) {
    forall id :: id in source ==> source[id].lastModified <= clock
  }

  /** What is in the source now was there at the earlier time, or has a later stamp. */
  ghost predicate Since(earlier: Source, clock: int, now: Source) {
    forall id :: id in now ==> (id in earlier && earlier[id] == now[id]) || now[id].lastModified > clock
  }

  predicate AtMost(stamp: Option<int>, clock: int) {
    stamp.Some? ==> stamp.value <= clock
  }

  /** The watermark a later pass will go by: 0 counts as none. */
  function Mark(state: SyncState): Option<int> {
    if OrZero(Watermark(state)) == 0 then None else Watermark(state)
  }

  /** The stamp up to which the running pass takes the destination to be right: what it
      has not asked for, and then everything up to when it fetched. */
  function Level(pc: Pc): Option<int> {
    match pc
    case Syncing(sync, strategy) => UpdatedAfter(sync, strategy)
    case Writing(sync, strategy, _, _, _) => UpdatedAfter(sync, strategy)
    case Synced(_, _, _, clock, _) => Some(clock)
    case Saved(_, _, _, clock) => Some(clock)
    case Cleared(_, _, _, clock) => Some(clock)
    case _ => None
  }

  /** No stamp runs ahead of the clock, and the workflow goes by what it has read. */
  ghost predicate StampInv(w: World) {
    && Clocked(w.source, w.clock) && AtMost(Mark(w.sync.state), w.clock) && AtMost(Level(w.pc), w.clock)
    && match w.pc {
      case GotSync(sync) => sync.state == w.sync.state
      case Decided(sync, _) => sync.state == w.sync.state
      case Started(sync, _) => sync.state == w.sync.state
      case Syncing(_, strategy) => strategy == Full ==> Mark(w.sync.state).None?
      case Writing(sync, strategy, source, clock, stream) =>
        && Clocked(source, clock) && clock <= w.clock && Since(source, clock, w.source)
        && AtMost(UpdatedAfter(sync, strategy), clock) && AtMost(Mark(w.sync.state), clock)
        && IsStream(source, UpdatedAfter(sync, strategy), stream)
        && (strategy == Full ==> Mark(w.sync.state).None?)
      case Synced(sync, strategy, source, clock, max) =>
        && Clocked(source, clock) && Since(source, clock, w.source)
        && AtMost(max, clock) && AtMost(UpdatedAfter(sync, strategy), clock)
      case Saved(_, _, source, clock) => Clocked(source, clock) && Since(source, clock, w.source)
      case Cleared(_, _, source, clock) => Clocked(source, clock) && Since(source, clock, w.source)
      case _ => true
    }
  }

  ghost predicate HoldsNow(w: World, stamp: Option<int>) {
    Holds(w.job, w.dest, w.source, stamp)
  }

  /** Every source record up to the stored watermark, and up to the level of the running
      pass, is in the destination as it is. */
  ghost predicate DataInv(w: World) {
    StampInv(w) && HoldsNow(w, Mark(w.sync.state)) && HoldsNow(w, Level(w.pc))
  }

  // ---- Writing a stream

  lemma LatestIsTheSource(source: Source, after: Option<int>, stream: seq<Record>, id: int, row: Row)
    requires IsStream(source, after, stream) && Latest(stream, id, row)
    ensures id in source && row == source[id]
  {
    assert Record(id, source[id]) in stream;
  }

  lemma StreamHasId(source: Source, after: Option<int>, stream: seq<Record>, id: int)
    requires IsStream(source, after, stream) && id in source && (after.Some? ==> source[id].lastModified > after.value)
    ensures HasId(stream, id)
  {
    assert Record(id, source[id]) in stream;
    var i :| 0 <= i < |stream| && stream[i] == Record(id, source[id]);
    assert stream[i].id == id;
  }

  /** A write, even an interrupted one, leaves a record of the source as it was in
      the destination or brings it to its version in the source. */
  lemma WrittenVersion(job: Job, dest: Table, dest': Table, source: Source, after: Option<int>, stream: seq<Record>, id: int)
    requires Attempted(dest, dest', job.tenant, job.objectName, stream, Deletes(job, after))
    requires IsStream(source, after, stream) && id in source
    ensures HasVersion(job, dest', id, source[id]) || Unchanged(dest, dest', OurKey(job, id))
    ensures Written(dest, dest', job.tenant, job.objectName, stream, Deletes(job, after)) && HasId(stream, id) ==>
              HasVersion(job, dest', id, source[id])
  {
    var t, o, k := job.tenant, job.objectName, OurKey(job, id);
    if after.None? {
      StreamHasId(source, after, stream, id);
    }
    hide IsStream;
    forall rows | IsCopied(rows, t, o, stream, id) ensures HasVersion(job, rows, id, source[id]) {
      LatestIsTheSource(source, after, stream, id, rows[k]);
    }
    hide IsCopied, HasVersion;
    if Written(dest, dest', t, o, stream, Deletes(job, after)) {
      var copied :| Copied(dest, copied, t, o, stream)
                    && dest' == if Deletes(job, after) then MarkDeleted(copied, t, o, stream) else copied;
      WrittenKey(job, dest, copied, dest', after, stream, id, source[id]);
    } else if !HasId(stream, id) {
      assert Unchanged(dest, dest', k);
    }
  }

  lemma WrittenKey(job: Job, dest: Table, copied: Table, dest': Table, after: Option<int>, stream: seq<Record>, id: int, row: Row)
    requires Copied(dest, copied, job.tenant, job.objectName, stream)
    requires dest' == if Deletes(job, after) then MarkDeleted(copied, job.tenant, job.objectName, stream) else copied
    requires after.None? ==> HasId(stream, id)
    requires HasId(stream, id) ==> HasVersion(job, copied, id, row)
    ensures HasId(stream, id) ==> HasVersion(job, dest', id, row)
    ensures !HasId(stream, id) ==> Unchanged(dest, dest', OurKey(job, id))
  {
    hide IsCopied;
    if !HasId(stream, id) {
      assert Unchanged(dest, copied, OurKey(job, id));
    }
  }

  lemma WriteKeepsHolds(job: Job, dest: Table, dest': Table, source: Source, clock: int, now: Source,
                        after: Option<int>, stream: seq<Record>, upTo: Option<int>)
    requires Attempted(dest, dest', job.tenant, job.objectName, stream, Deletes(job, after))
    requires IsStream(source, after, stream) && Since(source, clock, now) && AtMost(upTo, clock)
    requires Holds(job, dest, now, upTo)
    ensures Holds(job, dest', now, upTo)
  {
    hide Attempted, IsStream;
    forall id | id in now && upTo.Some? && now[id].lastModified <= upTo.value ensures HasVersion(job, dest', id, now[id]) {
      WrittenVersion(job, dest, dest', source, after, stream, id);
    }
  }

  /** A whole write brings everything up to when it was fetched. */
  lemma WriteHolds(job: Job, dest: Table, dest': Table, source: Source, clock: int, now: Source, after: Option<int>, stream: seq<Record>)
    requires Written(dest, dest', job.tenant, job.objectName, stream, Deletes(job, after))
    requires IsStream(source, after, stream) && Since(source, clock, now) && Holds(job, dest, now, after)
    ensures Holds(job, dest', now, Some(clock))
  {
    forall id | id in now && now[id].lastModified <= clock ensures HasVersion(job, dest', id, now[id]) {
      hide Written, IsStream;
      WrittenVersion(job, dest, dest', source, after, stream, id);
      if after.None? || now[id].lastModified > after.value {
        StreamHasId(source, after, stream, id);
      } else {
        assert HasVersion(job, dest, id, now[id]);
      }
    }
  }

  lemma WriteDelivers(job: Job, dest: Table, dest': Table, source: Source, after: Option<int>, stream: seq<Record>)
    requires Written(dest, dest', job.tenant, job.objectName, stream, Deletes(job, after))
    requires IsStream(source, after, stream) && Holds(job, dest, source, after)
    ensures Delivered(job, dest', source)
  {
    forall id | id in source ensures HasVersion(job, dest', id, source[id]) {
      hide Written, IsStream;
      WrittenVersion(job, dest, dest', source, after, stream, id);
      if after.None? || source[id].lastModified > after.value {
        StreamHasId(source, after, stream, id);
      } else {
        assert HasVersion(job, dest, id, source[id]);
      }
    }
  }

  lemma MaxIsPast(source: Source, clock: int, after: Option<int>, stream: seq<Record>, max: Option<int>)
    requires IsStream(source, after, stream) && Clocked(source, clock) && IsMax(stream, max)
    ensures AtMost(max, clock)
  {
  }

  // ---- The invariant over every step

  lemma EnvironmentKeepsHolds(w: World, w': World, upTo: Option<int>)
    requires Environment(w, w') && HoldsNow(w, upTo) && AtMost(upTo, w.clock)
    ensures HoldsNow(w', upTo)
  {
    forall id | id in w'.source && upTo.Some? && w'.source[id].lastModified <= upTo.value
      ensures HasVersion(w'.job, w'.dest, id, w'.source[id])
    {
      assert HasVersion(w.job, w.dest, id, w.source[id]);
      assert Unchanged(w.dest, w'.dest, OurKey(w.job, id));
    }
  }

  lemma EnvironmentSince(w: World, w': World, source: Source, clock: int)
    requires Environment(w, w') && Since(source, clock, w.source) && clock <= w.clock
    ensures Since(source, clock, w'.source)
  {
  }

  lemma EnvironmentKeepsStamps(w: World, w': World)
    requires StampInv(w) && Environment(w, w')
    ensures StampInv(w')
  {
    assert Clocked(w'.source, w'.clock);
    match w.pc {
      case Writing(_, _, source, clock, _) => EnvironmentSince(w, w', source, clock);
      case Synced(_, _, source, clock, _) => EnvironmentSince(w, w', source, clock);
      case Saved(_, _, source, clock) => EnvironmentSince(w, w', source, clock);
      case Cleared(_, _, source, clock) => EnvironmentSince(w, w', source, clock);
      case _ =>
    }
    hide Environment, IsStream, Since, Clocked;
    assert Others(w, w');
    OthersKeep(w, w');
  }

  lemma OthersKeepStamps(w: World, w': World)
    requires StampInv(w) && Others(w, w')
    ensures StampInv(w')
  {
    hide StampInv, Environment;
    if Environment(w, w') {
      EnvironmentKeepsStamps(w, w');
    } else {
      SameStamps(w, w');
    }
  }

  lemma SameStamps(w: World, w': World)
    requires StampInv(w) && w' == w.(apiReads := w'.apiReads, dest := w'.dest, sync := w.sync.(performFullRefresh := w'.sync.performFullRefresh))
    ensures StampInv(w')
  {
  }

  /** What the API writes is the version there is, or that version is still to come. */
  predicate Harmless(w: World, r: Record) {
    r.id in w.source && r.row != w.source[r.id] ==>
      Above(w.source[r.id].lastModified, Mark(w.sync.state)) && Above(w.source[r.id].lastModified, Level(w.pc))
  }

  predicate Above(stamp: int, level: Option<int>) {
    level.Some? ==> stamp > level.value
  }

  lemma UpsertKeepsHolds(w: World, w': World, r: Record, stamp: Option<int>)
    requires ApiUpsert(w, w', r) && HoldsNow(w, stamp)
    ensures HoldsNow(w', stamp) <==> (r.id in w.source && r.row != w.source[r.id] ==> Above(w.source[r.id].lastModified, stamp))
  {
    forall id | id in w.source && id != r.id && HasVersion(w.job, w.dest, id, w.source[id]) ensures HasVersion(w'.job, w'.dest, id, w.source[id]) {
    }
    assert r.id in w.source && stamp.Some? && w.source[r.id].lastModified <= stamp.value && HoldsNow(w', stamp) ==>
        HasVersion(w'.job, w'.dest, r.id, w.source[r.id]);
  }

  /** An upsert by the API leaves the invariant intact exactly when it is harmless. */
  lemma UpsertIsHarmless(w: World, w': World, r: Record)
    requires DataInv(w) && ApiUpsert(w, w', r)
    ensures DataInv(w') <==> Harmless(w, r)
  {
    SameStamps(w, w');
    hide StampInv, HoldsNow, Above;
    UpsertKeepsHolds(w, w', r, Mark(w.sync.state));
    UpsertKeepsHolds(w, w', r, Level(w.pc));
  }

  lemma OthersKeepData(w: World, w': World)
    requires DataInv(w) && Others(w, w')
    requires forall r :: ApiUpsert(w, w', r) ==> Harmless(w, r)
    ensures DataInv(w')
  {
    if exists r :: ApiUpsert(w, w', r) {
      var r :| ApiUpsert(w, w', r);
      hide DataInv, Harmless, ApiUpsert;
      UpsertIsHarmless(w, w', r);
    } else {
      OthersKeepStamps(w, w');
      assert AtMost(Mark(w.sync.state), w.clock) && AtMost(Level(w.pc), w.clock);
      hide StampInv;
      if Environment(w, w') {
        EnvironmentKeepsHolds(w, w', Mark(w.sync.state));
        EnvironmentKeepsHolds(w, w', Level(w.pc));
      }
    }
  }

  lemma WriteKeepsStamps(w: World, w': World)
    requires StampInv(w) && w.pc.Writing? && Activity(w, w')
    ensures StampInv(w')
  {
    if w'.pc.Synced? {
      MaxIsPast(w.pc.source, w.pc.clock, UpdatedAfter(w.pc.sync, w.pc.strategy), w.pc.stream, w'.pc.max);
    }
    hide Written, Attempted, IsMax, IsStream, Since, Clocked;
  }

  lemma ActivityKeepsStamps(w: World, w': World)
    requires StampInv(w) && Activity(w, w')
    ensures StampInv(w')
  {
    match w.pc {
      case Syncing(_, _) => hide IsStream;
      case Writing(_, _, _, _, _) => hide *; WriteKeepsStamps(w, w');
      case _ => hide Holds, Since, Clocked, Finish, GetSyncStrategy;
    }
  }

  lemma WriteKeepsData(w: World, w': World)
    requires DataInv(w) && w.pc.Writing? && Activity(w, w')
    ensures HoldsNow(w', Mark(w'.sync.state)) && HoldsNow(w', Level(w'.pc))
  {
    var source, clock, stream, after := w.pc.source, w.pc.clock, w.pc.stream, UpdatedAfter(w.pc.sync, w.pc.strategy);
    hide IsStream, Written, PartlyCopied, Holds, Since, IsMax;
    WriteKeepsHolds(w.job, w.dest, w'.dest, source, clock, w.source, after, stream, after);
    WriteKeepsHolds(w.job, w.dest, w'.dest, source, clock, w.source, after, stream, Mark(w.sync.state));
    if w'.pc.Synced? {
      WriteHolds(w.job, w.dest, w'.dest, source, clock, w.source, after, stream);
    }
  }

  lemma LowerHolds(w: World, stamp: Option<int>, clock: int)
    requires HoldsNow(w, Some(clock)) && AtMost(stamp, clock)
    ensures HoldsNow(w, stamp)
  {
  }

  lemma SaveKeepsData(w: World, w': World)
    requires DataInv(w) && w.pc.Synced? && Activity(w, w')
    ensures HoldsNow(w', Mark(w'.sync.state)) && HoldsNow(w', Level(w'.pc))
  {
    assert AtMost(Mark(w'.sync.state), w.pc.clock);
    hide StampInv, Holds;
    LowerHolds(w', Mark(w'.sync.state), w.pc.clock);
  }

  lemma ActivityKeepsData(w: World, w': World)
    requires DataInv(w) && Activity(w, w')
    ensures DataInv(w')
  {
    ActivityKeepsStamps(w, w');
    match w.pc {
      case Writing(_, _, _, _, _) => hide StampInv, HoldsNow, Activity; WriteKeepsData(w, w');
      case Synced(_, _, _, _, _) => hide StampInv, HoldsNow, Activity; SaveKeepsData(w, w');
      case _ => hide Holds, Since, Clocked, Finish, GetSyncStrategy, IsStream;
    }
  }

  lemma ThrownKeepsData(mid: World, w': World)
    requires w' == mid.(pc := Idle) || w' == mid.(pc := Failing)
    ensures StampInv(mid) ==> StampInv(w')
    ensures DataInv(mid) ==> DataInv(w')
  {
  }

  lemma WorkflowKeepsStamps(w: World, w': World)
    requires StampInv(w) && (Activity(w, w') || Interrupted(w, w'))
    ensures StampInv(w')
  {
    hide Activity, StampInv, Interrupted;
    if Activity(w, w') {
      ActivityKeepsStamps(w, w');
    } else {
      var mid := WhatInterrupts(w, w');
      if mid != w {
        ActivityKeepsStamps(w, mid);
      }
      ThrownKeepsData(mid, w');
    }
  }

  lemma WorkflowKeepsData(w: World, w': World)
    requires DataInv(w) && (Activity(w, w') || Interrupted(w, w'))
    ensures DataInv(w')
  {
    hide Activity, DataInv, Interrupted;
    if Activity(w, w') {
      ActivityKeepsData(w, w');
    } else {
      var mid := WhatInterrupts(w, w');
      if mid != w {
        ActivityKeepsData(w, mid);
      }
      ThrownKeepsData(mid, w');
    }
  }

  // ---- Over all runs

  ghost predicate UpsertsAt(run: seq<World>, k: nat, r: Record)
    requires 0 < k < |run|
  {
    ApiUpsert(run[k - 1], run[k], r)
  }

  /** Every upsert by the API between the two moments is harmless. */
  ghost predicate HarmlessBetween(run: seq<World>, b: nat, i: nat)
    requires b <= i < |run|
  {
    forall k, r :: b < k <= i && UpsertsAt(run, k, r) ==> Harmless(run[k - 1], r)
  }

  lemma HarmlessBefore(run: seq<World>, b: nat, i: nat, j: nat)
    requires b <= i <= j < |run| && HarmlessBetween(run, b, j)
    ensures HarmlessBetween(run, b, i)
  {
    hide Harmless, UpsertsAt;
  }

  /** Nothing is taken to be right: the sync is new, or a full pass is about to fetch. */
  predicate Anew(w: World, b: nat) {
    b == 0 || (w.pc.Syncing? && w.pc.strategy == Full)
  }

  lemma StartHasData(w: World)
    requires Start(w)
    ensures DataInv(w)
  {
  }

  lemma {:induction false} StampsAlways(run: seq<World>, i: nat)
    requires Run(run) && i < |run|
    ensures StampInv(run[i])
  {
    hide StampInv, Others, Activity, Interrupted;
    if i == 0 {
      assert StampInv(run[0]) by { StartHasData(run[0]); }
    } else {
      StampsAlways(run, i - 1);
      assert Step(run[i - 1], run[i]);
      if Others(run[i - 1], run[i]) {
        OthersKeepStamps(run[i - 1], run[i]);
      } else {
        WorkflowKeepsStamps(run[i - 1], run[i]);
      }
    }
  }

  lemma AnewIsRight(run: seq<World>, b: nat)
    requires Run(run) && b < |run| && Anew(run[b], b)
    ensures DataInv(run[b])
  {
    StampsAlways(run, b);
    hide Clocked;
    if b == 0 {
      StartHasData(run[0]);
    }
  }

  lemma DataStep(run: seq<World>, k: nat)
    requires Run(run) && 0 < k < |run| && DataInv(run[k - 1])
    ensures (forall r :: UpsertsAt(run, k, r) ==> Harmless(run[k - 1], r)) ==> DataInv(run[k])
    ensures (exists r :: UpsertsAt(run, k, r) && !Harmless(run[k - 1], r)) ==> !DataInv(run[k])
  {
    var w, w' := run[k - 1], run[k];
    assert Step(w, w');
    hide Run, DataInv, Activity, Interrupted, Harmless, ApiUpsert;
    if exists r :: UpsertsAt(run, k, r) && !Harmless(w, r) {
      var r :| UpsertsAt(run, k, r) && !Harmless(w, r);
      UpsertIsHarmless(w, w', r);
    } else if Others(w, w') {
      assert forall r :: ApiUpsert(w, w', r) ==> UpsertsAt(run, k, r);
      hide Others;
      OthersKeepData(w, w');
    } else {
      WorkflowKeepsData(w, w');
    }
  }

  /** Whatever happened before, and whatever fails: from a full pass on, and from the
      creation of the sync on, the invariant holds as long as the API's upserts are
      harmless. */
  lemma {:induction false} DataAlways(run: seq<World>, b: nat, i: nat)
    requires Run(run) && b <= i < |run| && Anew(run[b], b) && HarmlessBetween(run, b, i)
    ensures DataInv(run[i])
  {
    hide Run, DataInv, Harmless, UpsertsAt;
    if i == b {
      AnewIsRight(run, b);
    } else {
      DataAlways(run, b, i - 1);
      DataStep(run, i);
    }
  }

  /** Over a whole run: the invariant holds throughout exactly when all upserts are
      harmless. */
  lemma DataHoldsIffHarmless(run: seq<World>)
    requires Run(run)
    ensures (forall i :: 0 <= i < |run| ==> DataInv(run[i])) <==> HarmlessBetween(run, 0, |run| - 1)
  {
    assert run != [];
    hide Run, DataInv, Harmless, UpsertsAt;
    if HarmlessBetween(run, 0, |run| - 1) {
      forall i | 0 <= i < |run| ensures DataInv(run[i]) {
        DataAlways(run, 0, i);
      }
    } else {
      var k, r :| 0 < k <= |run| - 1 && UpsertsAt(run, k, r) && !Harmless(run[k - 1], r);
      if DataInv(run[k - 1]) {
        DataStep(run, k);
      }
    }
  }

  // ---- What it gives

  /** Whatever failed between any two activities or batches, however the provider
      changed meanwhile: a source record up to the stored watermark is in the
      destination exactly as it is in the source. */
  lemma WatermarkIsHonest(run: seq<World>, b: nat, i: nat, id: int)
    requires Run(run) && b <= i < |run| && Anew(run[b], b) && HarmlessBetween(run, b, i)
    requires OrZero(Watermark(run[i].sync.state)) != 0
    requires id in run[i].source && run[i].source[id].lastModified <= OrZero(Watermark(run[i].sync.state))
    ensures HasVersion(run[i].job, run[i].dest, id, run[i].source[id])
  {
    DataAlways(run, b, i);
    hide Run, StampInv, HarmlessBetween;
  }

  /** When a run ends in success, full or incremental, the destination holds every
      record of the provider that has not changed since it was fetched. */
  lemma SuccessDelivers(run: seq<World>, b: nat, i: nat, id: int)
    requires Run(run) && b <= i < |run| && Anew(run[b], b) && HarmlessBetween(run, b, i) && run[i].pc.Cleared?
    requires id in run[i].source && run[i].source[id].lastModified <= run[i].pc.clock
    ensures HasVersion(run[i].job, run[i].dest, id, run[i].source[id])
    ensures id in run[i].pc.source && run[i].pc.source[id] == run[i].source[id]
  {
    DataAlways(run, b, i);
    hide Run, HarmlessBetween;
  }

  /** Over the same destination and the same state of the provider, an incremental
      pass leaves the destination that a full pass would leave exactly when no live
      row of the sync has vanished from the provider, or vanished rows are not
      deleted for this provider. In any case they agree on every record there is. */
  lemma IncrementalRefinesFull(job: Job, dest: Table, source: Source, after: int,
                               incremental: Table, some: seq<Record>, full: Table, all: seq<Record>)
    requires Holds(job, dest, source, Some(after))
    requires IsStream(source, Some(after), some) && Written(dest, incremental, job.tenant, job.objectName, some, Deletes(job, Some(after)))
    requires IsStream(source, None, all) && Written(dest, full, job.tenant, job.objectName, all, Deletes(job, None))
    ensures Delivered(job, incremental, source) && Delivered(job, full, source)
    ensures incremental == full <==>
            (Deletes(job, None) ==> forall k :: k in dest && Ours(job, k) && k.id !in source ==> dest[k].deleted)
  {
    WriteDelivers(job, dest, incremental, source, Some(after), some);
    WriteDelivers(job, dest, full, source, None, all);
    forall k: Key ensures
      && (k in incremental <==> k in full)
      && (k in incremental && !(Ours(job, k) && k.id !in source) ==> incremental[k] == full[k])
      && (Ours(job, k) && k.id !in source ==> Unchanged(dest, incremental, k))
      && (Ours(job, k) && k.id !in source && k in dest ==> full[k] == if Deletes(job, None) then dest[k].(deleted := true) else dest[k])
    {
      SameKey(job, dest, source, Some(after), incremental, some, k);
      SameKey(job, dest, source, None, full, all, k);
      if Ours(job, k) && k.id in source {
        assert k == OurKey(job, k.id);
        assert HasVersion(job, incremental, k.id, source[k.id]) && HasVersion(job, full, k.id, source[k.id]);
      }
    }
    hide IsStream, Written, Holds, Delivered;
    if incremental == full && Deletes(job, None) {
      forall k | k in dest && Ours(job, k) && k.id !in source ensures dest[k].deleted {
        assert incremental[k] == full[k];
      }
    }
  }

  /** A write of a stream of the source to a row that is not a record of the source. */
  lemma SameKey(job: Job, dest: Table, source: Source, after: Option<int>, dest': Table, stream: seq<Record>, k: Key)
    requires IsStream(source, after, stream) && Written(dest, dest', job.tenant, job.objectName, stream, Deletes(job, after))
    ensures !Ours(job, k) ==> Unchanged(dest, dest', k)
    ensures Ours(job, k) && k.id !in source ==>
      && (k in dest' <==> k in dest)
      && (k in dest ==> dest'[k] == if Deletes(job, after) then dest[k].(deleted := true) else dest[k])
  {
    if k.id !in source {
      assert !HasId(stream, k.id);
    }
    hide IsStream;
    var copied :| Copied(dest, copied, job.tenant, job.objectName, stream)
                  && dest' == if Deletes(job, after) then MarkDeleted(copied, job.tenant, job.objectName, stream) else copied;
    if !Ours(job, k) || !HasId(stream, k.id) {
      assert Unchanged(dest, copied, k);
    }
  }
}
