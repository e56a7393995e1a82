/** The workflow as the program it is: `runObjectSync` with its try and catch, over
    the destination writer. Between any two activities others take any number of steps,
    and every activity has a fate; whatever happens, the states are a run of the machine. */
module RunWorkflow {
  import opened SyncTypes
  import opened DestinationWriter
  import opened SyncRun
  import opened SyncRunData
  import opened SyncRunUpserts
  import opened SyncRunWatermark

  /** How an activity ends: it may also fail after having taken effect. */
  datatype Fate = Succeeds | FailsBefore | FailsAfter

  datatype Fates = Fates(getSync: Fate, getSyncStrategy: Fate, logSyncStart: Fate, begin: Fate,
                         attempts: seq<nat>, save: Fate, clear: Fate, logSyncFinish: Fate)

  const MAXIMUM_ATTEMPTS: nat := 3

  /** An activity that took effect or not, whose failure is then reported. */
  lemma Fails(w: World, mid: World, w': World)
    requires mid == w || Activity(w, mid)
    requires w' == mid.(pc := Idle) || (InTry(w.pc) && w' == mid.(pc := Failing))
    ensures Step(w, w')
  {
    hide Activity, Others;
    assert Interrupted(w, w');
  }

  lemma ClearIsActivity(w: World)
    requires w.pc.Saved?
    ensures Activity(w, w.(sync := w.sync.(performFullRefresh := false), pc := Cleared(w.pc.sync, w.pc.strategy, w.pc.source, w.pc.clock)))
  {
  }

  lemma StartIsActivity(w: World)
    requires w.pc.Decided?
    ensures Activity(w, w.(log := w.log + [LogEntry(w.pc.strategy, Running)], pc := Started(w.pc.sync, w.pc.strategy)))
  {
  }

  lemma FinishIsActivity(w: World)
    requires (w.pc.Cleared? || w.pc.Failing?) && w.log != []
    ensures Activity(w, w.(log := Finish(w.log, if w.pc.Cleared? then Success else Failure), pc := Idle))
  {
  }

  lemma Finished(log: seq<LogEntry>, strategy: RunStrategy)
    ensures forall status :: Finish(log + [LogEntry(strategy, Running)], status) == log + [LogEntry(strategy, status)]
  {
  }

  /** The activity takes a watermark of 0 for none. */
  function SinceWhen(updatedAfterMs: Option<int>): (r: Option<int>)
    ensures r.None? <==> updatedAfterMs == None || updatedAfterMs == Some(0)
    ensures r.Some? ==> r == updatedAfterMs
  {
    if updatedAfterMs == Some(0) then None else updatedAfterMs
  }

  /** What the provider is asked for: an incremental pass goes on from the watermark. */
  function AsksSince(state: SyncState, strategy: RunStrategy): Option<int> {
    if strategy == Full then None else SinceWhen(Watermark(state))
  }

  function Carried(attempts: seq<nat>, i: nat): nat {
    if i < |attempts| then attempts[i] else 0
  }

  /** The last attempt, over that many records, had enough statements. */
  predicate LastWorks(attempts: seq<nat>, tried: seq<nat>, delete: bool) {
    tried != [] && Carried(attempts, |tried| - 1) >= Needed(tried[|tried| - 1], delete)
  }

  /** One attempt after the other, each over so many records, until one works or three
      have failed. */
  predicate Tried(attempts: seq<nat>, tried: seq<nat>, delete: bool) {
    && 1 <= |tried| <= 3
    && (forall i :: 0 <= i < |tried| - 1 ==> Carried(attempts, i) < Needed(tried[i], delete))
    && (LastWorks(attempts, tried, delete) || |tried| == 3)
  }

  ghost predicate OthersAt(run: seq<World>, k: nat)
    requires 0 < k < |run|
  {
    Others(run[k - 1], run[k])
  }

  ghost predicate OthersChain(others: seq<World>) {
    others != [] && forall k :: 0 < k < |others| ==> OthersAt(others, k)
  }

  lemma {:induction false} ChainKeeps(others: seq<World>, k: nat)
    requires OthersChain(others) && k < |others|
    ensures var w, w' := others[0], others[k];
            && w.clock <= w'.clock && w'.job == w.job && w'.log == w.log && w'.fulls == w.fulls && w'.pc == w.pc
            && w'.sync.state == w.sync.state
  {
    if k > 0 {
      ChainKeeps(others, k - 1);
      assert OthersAt(others, k);
      OthersKeep(others[k - 1], others[k]);
      hide Others, OthersChain;
    }
  }

  lemma RunGoesOn(run: seq<World>, others: seq<World>)
    requires Run(run) && OthersChain(others) && others[0] == run[|run| - 1]
    ensures Run(run + others[1..])
  {
    var all := run + others[1..];
    hide Start;
    forall k | 0 < k < |all| ensures Step(all[k - 1], all[k]) {
      if k >= |run| {
        assert OthersAt(others, k - |run| + 1);
        hide Others, Activity, Interrupted;
        assert all[k] == others[k - |run| + 1] && all[k - 1] == others[k - |run|];
      }
    }
  }

  /** Since some beginning every upsert by the API was harmless. */
  ghost predicate Trusted(run: seq<World>, b: nat)
    requires b < |run|
  {
    Anew(run[b], b) && HarmlessBetween(run, b, |run| - 1)
  }

  /** The run has just ended in success. */
  ghost predicate Succeeded(run: seq<World>) {
    && |run| > 1
    && var w, w' := run[|run| - 2], run[|run| - 1];
    && w.pc.Cleared? && w' == w.(log := w'.log, pc := Idle)
  }

  lemma SuccessHolds(run: seq<World>, b: nat)
    requires Run(run) && Succeeded(run) && b < |run| && Trusted(run, b)
    ensures var w := run[|run| - 1]; Holds(w.job, w.dest, w.source, Some(run[|run| - 2].pc.clock))
  {
    var i := |run| - 2;
    if b <= i {
      hide Run, HarmlessBetween;
      assert HarmlessBetween(run, b, i) by { HarmlessBefore(run, b, i, |run| - 1); }
      DataAlways(run, b, i);
    }
    hide *;
    SameHolds(run, b);
  }

  lemma SameHolds(run: seq<World>, b: nat)
    requires Succeeded(run) && b < |run| && Trusted(run, b) && (b <= |run| - 2 ==> DataInv(run[|run| - 2]))
    ensures var w := run[|run| - 1]; Holds(w.job, w.dest, w.source, Some(run[|run| - 2].pc.clock))
  {
    hide StampInv, HarmlessBetween, Holds;
  }

  lemma SuccessHoldsFetched(run: seq<World>, b: nat, id: int)
    requires Run(run) && Succeeded(run) && b < |run| && Trusted(run, b) && CurrentBetween(run, b, |run| - 1)
    requires id in run[|run| - 2].pc.source
    ensures HasVersionOrLater(run[|run| - 1].job, run[|run| - 1].dest, id, run[|run| - 2].pc.source[id])
  {
    var i := |run| - 2;
    hide Run, HasVersionOrLater, HarmlessBetween, CurrentBetween;
    if b <= i {
      HarmlessBefore(run, b, i, |run| - 1);
      CurrentBefore(run, b, i, |run| - 1);
      SuccessDeliversFetched(run, b, i, id);
    }
  }

  lemma SuccessPromises(run: seq<World>)
    requires Run(run) && Succeeded(run)
    ensures var w, pc := run[|run| - 1], run[|run| - 2].pc;
            && (forall b :: 0 <= b < |run| && Trusted(run, b) ==> Holds(w.job, w.dest, w.source, Some(pc.clock)))
            && (forall b :: 0 <= b < |run| && Trusted(run, b) && CurrentBetween(run, b, |run| - 1) ==>
                  forall id :: id in pc.source ==> HasVersionOrLater(w.job, w.dest, id, pc.source[id]))
  {
    var w, pc := run[|run| - 1], run[|run| - 2].pc;
    hide Run, Trusted, CurrentBetween, Holds, HasVersionOrLater;
    forall b | 0 <= b < |run| && Trusted(run, b) ensures Holds(w.job, w.dest, w.source, Some(pc.clock)) {
      SuccessHolds(run, b);
    }
    forall b, id | 0 <= b < |run| && Trusted(run, b) && CurrentBetween(run, b, |run| - 1) && id in pc.source
      ensures HasVersionOrLater(w.job, w.dest, id, pc.source[id])
    {
      SuccessHoldsFetched(run, b, id);
    }
  }

  class RunWorkflow {
    const job: Job
    var sync: Sync
    var log: seq<LogEntry>
    var source: Source
    var clock: int
    const writer: DestinationWriter
    ghost var fulls: nat
    ghost var apiReads: multiset<Record>
    ghost var pc: Pc
    ghost var run: seq<World> // everything that has happened so far, step by step

    /** A sync that has just been created. */
    constructor (job: Job, sync: Sync, source: Source, clock: int, writer: DestinationWriter)
      requires sync.state == Created && !sync.performFullRefresh && Clocked(source, clock)
      ensures Valid() && run == [Now()]
      ensures this.job == job && this.sync == sync && this.source == source && this.clock == clock && this.writer == writer
      ensures log == [] && fulls == 0 && pc == Idle
    {
      this.job, this.sync, this.source, this.clock, this.writer := job, sync, source, clock, writer;
      log, fulls, apiReads, pc := [], 0, multiset{}, Idle;
      run := [World(job, sync, [], 0, source, clock, writer.rows, multiset{}, Idle)];
    }

    ghost function Now(): World
      reads this, writer
    {
      World(job, sync, log, fulls, source, clock, writer.rows, apiReads, pc)
    }

    /** The program has been running the machine. */
    ghost predicate Valid()
      reads this, writer
    {
      run != [] && Run(run) && run[|run| - 1] == Now()
    }

    /** What has been done since is a step. */
    ghost method Take()
      requires Run(run) && Step(run[|run| - 1], Now())
      modifies this`run
      ensures Valid() && run == old(run) + [Now()]
    {
      hide Step, Start;
      run := run + [Now()];
    }

    /** Others act between two activities. Nothing is known of what they do beyond
        this contract, which admits any number of their steps. */
    method Interfere() returns (ghost others: seq<World>)
      modifies this`sync, this`source, this`clock, this`apiReads, writer`rows
      ensures OthersChain(others) && others[0] == old(Now()) && others[|others| - 1] == Now()
    {
      others := [Now()];
    }

    method Yield()
      requires Valid()
      modifies this`sync, this`source, this`clock, this`apiReads, this`run, writer`rows
      ensures Valid() && old(run) <= run
      ensures sync.state == old(sync).state && old(clock) <= clock
    {
      ghost var others := Interfere();
      hide OthersChain, Run;
      ChainKeeps(others, |others| - 1);
      RunGoesOn(run, others);
      run := run + others[1..];
    }

    /** An API call reads the record it has changed ... */
    method GetRecord(id: int) returns (record: Option<Record>)
      requires Valid()
      modifies this`apiReads, this`run
      ensures Valid() && old(run) <= run
      ensures if id in source then record == Some(Record(id, source[id])) && record.value in apiReads else record == None
    {
      hide Run, Environment;
      if id !in source {
        return None;
      }
      ghost var w := Now();
      record := Some(Record(id, source[id]));
      apiReads := apiReads + multiset{Record(id, source[id])};
      assert ApiRead(w, Now());
      Take();
    }

    /** ... and some time later upserts it, whatever the destination holds by then. */
    method UpsertRecord(record: Record)
      requires Valid() && record in apiReads
      modifies this`apiReads, this`run, writer`rows
      ensures Valid() && old(run) <= run && |run| == |old(run)| + 1 && UpsertsAt(run, |run| - 1, record)
      ensures writer.rows == old(writer.rows)[OurKey(job, record.id) := record.row]
    {
      hide Run, Environment, Activity, Interrupted, Written;
      ghost var w := Now();
      writer.UpsertRecordImpl(job.tenant, job.objectName, record);
      apiReads := apiReads - multiset{record};
      assert ApiUpsert(w, Now(), record);
      Take();
    }

    /** `triggerSync`: what an earlier trigger has asked for is overwritten. */
    method TriggerSync(performFullRefresh: bool)
      requires Valid()
      modifies this`sync, this`run
      ensures Valid() && run == old(run) + [Now()] && Trigger(old(Now()), Now(), performFullRefresh)
    {
      hide Run, Environment;
      ghost var w := Now();
      sync := sync.(performFullRefresh := performFullRefresh);
      assert Trigger(w, Now(), performFullRefresh);
      Take();
    }

    method UpdateSyncState(state: SyncState, fate: Fate)
      modifies this`sync
      ensures sync == if fate == FailsBefore then old(sync) else old(sync).(state := state)
    {
      if fate != FailsBefore {
        sync := sync.(state := state);
      }
    }

    /** The provider streams what was modified after the given time. */
    method StreamRecords(updatedAfter: Option<int>) returns (stream: seq<Record>)
      ensures IsStream(source, updatedAfter, stream)
    {
      stream := [];
      var ids := InAnyOrder(source.Keys);
      for i := 0 to |ids|
        invariant forall r :: r in stream ==> r.id in source && r.row == source[r.id]
        invariant forall j :: 0 <= j < i && (updatedAfter.Some? ==> source[ids[j]].lastModified > updatedAfter.value) ==>
                    Record(ids[j], source[ids[j]]) in stream
      {
        assert ids[i] in source.Keys;
        if updatedAfter.None? || source[ids[i]].lastModified > updatedAfter.value {
          stream := stream + [Record(ids[i], source[ids[i]])];
        }
      }
      forall id | id in source ensures id in ids {
      }
    }

    /** Fetch and write, retried like any activity: the latest stamp of the stream and the
        number of its records. */
    method SyncObjectRecords(copy: Sync, strategy: RunStrategy, updatedAfterMs: Option<int>, attempts: seq<nat>)
      returns (r: Option<(Option<int>, nat)>, ghost stream: seq<Record>, ghost tried: seq<nat>)
      requires Valid() && pc == Syncing(copy, strategy) && SinceWhen(updatedAfterMs) == UpdatedAfter(copy, strategy)
      modifies this`sync, this`source, this`clock, this`apiReads, this`pc, this`run, writer
      ensures Valid() && old(run) <= run && sync.state == old(sync).state && old(clock) <= clock
      ensures r.Some? ==> pc.Synced? && pc == Synced(copy, strategy, pc.source, pc.clock, r.value.0) && old(clock) <= pc.clock
      ensures r.Some? ==> IsStream(pc.source, SinceWhen(updatedAfterMs), stream) && IsMax(stream, r.value.0) && r.value.1 == |stream|
      ensures var delete := Deletes(job, SinceWhen(updatedAfterMs)); tried != [] && Tried(attempts, tried, delete) && (r.Some? <==> LastWorks(attempts, tried, delete))
      ensures r.None? ==> pc == Failing
    {
      hide Run, Activity, Environment, IsStream, IsMax;
      var updatedAfter := SinceWhen(updatedAfterMs);
      stream, tried := [], [];
      for i := 0 to MAXIMUM_ATTEMPTS
        invariant |tried| == i && forall j :: 0 <= j < i ==> Carried(attempts, j) < Needed(tried[j], Deletes(job, updatedAfter))
        invariant Valid() && old(run) <= run
        invariant pc == Syncing(copy, strategy) && sync.state == old(sync).state && old(clock) <= clock
      {
        r, stream := Attempt(copy, strategy, updatedAfter, Carried(attempts, i));
        tried := tried + [|stream|];
        if r.Some? {
          Yield();
          return;
        }
      }
      ghost var w := Now();
      pc := Failing;
      Fails(w, w, Now());
      Take();
      r := None;
    }

    method Attempt(copy: Sync, strategy: RunStrategy, updatedAfter: Option<int>, statements: nat)
      returns (r: Option<(Option<int>, nat)>, ghost stream: seq<Record>)
      requires Valid() && pc == Syncing(copy, strategy) && updatedAfter == UpdatedAfter(copy, strategy)
      modifies this`sync, this`source, this`clock, this`apiReads, this`pc, this`run, writer
      ensures Valid() && old(run) <= run && sync.state == old(sync).state
      ensures r.Some? ==> pc.Synced? && pc == Synced(copy, strategy, pc.source, pc.clock, r.value.0) && old(clock) <= pc.clock
      ensures r.Some? ==> IsStream(pc.source, updatedAfter, stream) && IsMax(stream, r.value.0) && r.value.1 == |stream|
      ensures r.Some? <==> statements >= Needed(|stream|, Deletes(job, updatedAfter))
      ensures r.None? ==> pc == Syncing(copy, strategy)
      ensures old(clock) <= clock
    {
      hide Run, IsStream, IsMax;
      Yield();
      var fetched := Fetch(copy, strategy, updatedAfter);
      stream := fetched;
      Yield();
      r := WriteStream(copy, strategy, updatedAfter, fetched, statements);
    }

    method Fetch(copy: Sync, strategy: RunStrategy, updatedAfter: Option<int>) returns (stream: seq<Record>)
      requires Valid() && pc == Syncing(copy, strategy) && updatedAfter == UpdatedAfter(copy, strategy)
      modifies this`pc, this`run
      ensures Valid() && old(run) <= run && pc == Writing(copy, strategy, source, clock, stream)
      ensures IsStream(source, updatedAfter, stream)
    {
      hide Run, IsStream;
      stream := StreamRecords(updatedAfter);
      pc := Writing(copy, strategy, source, clock, stream);
      Take();
    }

    method WriteStream(copy: Sync, strategy: RunStrategy, updatedAfter: Option<int>, stream: seq<Record>, statements: nat)
      returns (r: Option<(Option<int>, nat)>)
      requires Valid() && pc.Writing? && pc == Writing(copy, strategy, pc.source, pc.clock, stream) && updatedAfter == UpdatedAfter(copy, strategy)
      modifies this`pc, this`run, writer
      ensures Valid() && old(run) <= run
      ensures if r.Some? then pc == Synced(copy, strategy, old(pc).source, old(pc).clock, r.value.0) else pc == Syncing(copy, strategy)
      ensures r.Some? ==> IsMax(stream, r.value.0) && r.value.1 == |stream|
      ensures r.Some? <==> statements >= Needed(|stream|, Deletes(job, updatedAfter))
    {
      hide Run, Written, Attempted, IsMax;
      ghost var w := Now();
      writer.statements := statements;
      var result := writer.WriteRecordsImpl(job.tenant, job.objectName, stream,
                                            ShouldDeleteRecords(updatedAfter.None?, job.tenant.providerName));
      if result.Wrote? {
        pc := Synced(copy, strategy, w.pc.source, w.pc.clock, result.maxLastModifiedAt);
        r := Some((result.maxLastModifiedAt, result.numRecords));
      } else {
        pc := Syncing(copy, strategy);
        r := None;
      }
      assert Activity(w, Now());
      Take();
    }

    /** Save a state of the sync; `next` is where the workflow goes if it works. */
    method SaveState(state: SyncState, fate: Fate, ghost next: Pc, ghost fulls': nat) returns (ok: bool)
      requires Valid() && InTry(pc)
      requires Activity(Now(), Now().(sync := sync.(state := state), fulls := fulls', pc := next))
      modifies this`sync, this`fulls, this`pc, this`run
      ensures Valid() && old(run) <= run && ok == fate.Succeeds?
      ensures ok ==> pc == next && sync.state == state
      ensures !ok ==> pc == Failing
    {
      hide Run, Activity;
      ghost var w := Now();
      UpdateSyncState(state, fate);
      fulls := if fate == FailsBefore then fulls else fulls';
      pc := next;
      ghost var mid := Now();
      ok := fate.Succeeds?;
      if ok {
        Take();
      } else {
        pc := Failing;
        Fails(w, if fate == FailsBefore then w else mid, Now());
        Take();
      }
    }

    /** A full pass: it asks for everything, and saves a watermark over what it wrote. */
    method DoFullSync(copy: Sync, f: Fates) returns (r: Option<nat>, ghost stream: seq<Record>, ghost tried: seq<nat>)
      requires Valid() && pc == Started(copy, Full)
      modifies this`sync, this`source, this`clock, this`apiReads, this`fulls, this`pc, this`run, writer
      ensures Valid() && old(run) <= run && old(clock) <= clock
      ensures r.Some? ==>
        && pc.Saved? && pc == Saved(copy, Full, pc.source, pc.clock) && old(clock) <= pc.clock
        && r.value == |stream| && IsStream(pc.source, None, stream) && SavedState(None, sync.state, copy, Full, stream)
      ensures r.None? ==> pc == Failing
      ensures var delete := Deletes(job, None);
              && (if f.begin.Succeeds? then tried != [] && Tried(f.attempts, tried, delete) else tried == [])
              && (r.Some? <==> LastWorks(f.attempts, tried, delete) && f.save.Succeeds?)
    {
      hide Run, IsStream, Written, Attempted, IsMax, GetSyncStrategy, Finish, Deletes, Others, SavedState, Tried, Needed;
      stream, tried := [], [];
      var ok := SaveState(Live(FullPhase, InProgress, None), f.begin, Syncing(copy, Full), fulls);
      if !ok {
        r := None;
        return;
      }
      var synced;
      synced, stream, tried := SyncObjectRecords(copy, Full, None, f.attempts);
      if synced.None? {
        r := None;
        return;
      }
      DoneIsSaved(copy, Full, stream, synced.value.0);
      var newMaxLastModifiedAtMs := if copy.strategy.strategyType == FullOnly then None else Some(OrZero(synced.value.0));
      ok := SaveState(Live(FullPhase, Done, newMaxLastModifiedAtMs), f.save, Saved(copy, Full, pc.source, pc.clock), fulls + 1);
      r := if ok then Some(synced.value.1) else None;
    }

    /** An incremental pass: it asks for what was modified after the stored watermark, and
        moves the watermark on over what it wrote. */
    method DoIncrementalSync(copy: Sync, f: Fates) returns (r: Option<nat>, ghost stream: seq<Record>, ghost tried: seq<nat>)
      requires Valid() && pc == Started(copy, Incremental)
      modifies this`sync, this`source, this`clock, this`apiReads, this`fulls, this`pc, this`run, writer
      ensures Valid() && old(run) <= run && old(clock) <= clock
      ensures r.Some? ==>
        && pc.Saved? && pc == Saved(copy, Incremental, pc.source, pc.clock) && old(clock) <= pc.clock
        && r.value == |stream| && IsStream(pc.source, SinceWhen(Watermark(copy.state)), stream)
        && SavedState(Watermark(copy.state), sync.state, copy, Incremental, stream)
      ensures r.None? ==> pc == Failing
      ensures var delete := Deletes(job, SinceWhen(Watermark(copy.state)));
              && (if f.begin.Succeeds? then tried != [] && Tried(f.attempts, tried, delete) else tried == [])
              && (r.Some? <==> LastWorks(f.attempts, tried, delete) && f.save.Succeeds?)
    {
      hide Run, IsStream, Written, Attempted, IsMax, GetSyncStrategy, Finish, Deletes, Others, SavedState, Tried, Needed;
      stream, tried := [], [];
      var ok := SaveState(Live(IncrementalPhase, InProgress, Watermark(copy.state)), f.begin, Syncing(copy, Incremental), fulls);
      if !ok {
        r := None;
        return;
      }
      var synced;
      synced, stream, tried := SyncObjectRecords(copy, Incremental, Watermark(copy.state), f.attempts);
      if synced.None? {
        r := None;
        return;
      }
      DoneIsSaved(copy, Incremental, stream, synced.value.0);
      var newMaxLastModifiedAtMs := Max(OrZero(synced.value.0), OrZero(Watermark(copy.state)));
      ok := SaveState(Live(IncrementalPhase, Done, Some(newMaxLastModifiedAtMs)), f.save,
                      Saved(copy, Incremental, pc.source, pc.clock), fulls);
      r := if ok then Some(synced.value.1) else None;
    }

    method GetSync(fate: Fate) returns (copy: Option<Sync>)
      requires Valid() && pc == Idle
      modifies this`sync, this`source, this`clock, this`apiReads, this`pc, this`run, writer`rows
      ensures Valid() && old(run) <= run && sync.state == old(sync).state && old(clock) <= clock
      ensures if fate.Succeeds? then copy == Some(sync) && pc == GotSync(sync) else copy == None && pc == Idle
    {
      hide Run;
      Yield();
      if !fate.Succeeds? {
        return None;
      }
      pc := GotSync(sync);
      Take();
      copy := Some(sync);
    }

    method DecideStrategy(copy: Sync, fate: Fate) returns (strategy: Option<RunStrategy>)
      requires Valid() && pc == GotSync(copy)
      modifies this`sync, this`source, this`clock, this`apiReads, this`pc, this`run, writer`rows
      ensures Valid() && old(run) <= run && sync.state == old(sync).state && old(clock) <= clock
      ensures fate.Succeeds? ==> strategy == Some(GetSyncStrategy(copy, log)) && pc == Decided(copy, GetSyncStrategy(copy, log))
      ensures !fate.Succeeds? ==> strategy == None && pc == Idle
    {
      hide Run, GetSyncStrategy;
      Yield();
      ghost var w := Now();
      if fate.Succeeds? {
        pc := Decided(copy, GetSyncStrategy(copy, log));
        strategy := Some(GetSyncStrategy(copy, log));
      } else {
        pc := Idle;
        strategy := None;
        Fails(w, w, Now());
      }
      Take();
    }

    method LogSyncStart(copy: Sync, strategy: RunStrategy, fate: Fate) returns (ok: bool)
      requires Valid() && pc == Decided(copy, strategy)
      modifies this`sync, this`source, this`clock, this`apiReads, this`log, this`pc, this`run, writer`rows
      ensures Valid() && old(run) <= run && ok == fate.Succeeds? && sync.state == old(sync).state && old(clock) <= clock
      ensures log == if fate == FailsBefore then old(log) else old(log) + [LogEntry(strategy, Running)]
      ensures pc == if ok then Started(copy, strategy) else Idle
    {
      hide Run, Activity, Others, Start;
      Yield();
      ghost var w := Now();
      StartIsActivity(w);
      if fate != FailsBefore {
        log := log + [LogEntry(strategy, Running)];
        pc := Started(copy, strategy);
      }
      ok := fate.Succeeds?;
      ghost var mid := Now();
      if !ok {
        pc := Idle;
        Fails(w, mid, Now());
      }
      Take();
    }

    /** Read the sync, decide, and record the start of the run. */
    method StartRun(f: Fates) returns (r: Option<(Sync, RunStrategy)>)
      requires Valid() && pc == Idle
      modifies this`sync, this`source, this`clock, this`apiReads, this`log, this`pc, this`run, writer`rows
      ensures Valid() && old(run) <= run && old(clock) <= clock
      ensures r.Some? ==>
        && pc == Started(r.value.0, r.value.1)
        && r.value.0.state == old(sync).state == sync.state && r.value.1 == GetSyncStrategy(r.value.0, old(log))
        && log == old(log) + [LogEntry(r.value.1, Running)]
      ensures r.Some? <==> f.getSync.Succeeds? && f.getSyncStrategy.Succeeds? && f.logSyncStart.Succeeds?
      ensures r.None? ==> pc == Idle && (log == old(log) || exists s :: log == old(log) + [LogEntry(s, Running)])
    {
      hide Run, GetSyncStrategy;
      var copy := GetSync(f.getSync);
      if copy.None? {
        return None;
      }
      var strategy := DecideStrategy(copy.value, f.getSyncStrategy);
      if strategy.None? {
        return None;
      }
      var ok := LogSyncStart(copy.value, strategy.value, f.logSyncStart);
      Yield();
      r := if ok then Some((copy.value, strategy.value)) else None;
    }

    /** Log the end of the run; from here an exception leaves the workflow. */
    method LogSyncFinish(status: RunStatus, fate: Fate) returns (ok: bool)
      requires Valid() && ((pc.Cleared? && status == Success) || (pc.Failing? && status == Failure)) && log != []
      modifies this`log, this`pc, this`run
      ensures Valid() && old(run) <= run && pc == Idle && ok == fate.Succeeds?
      ensures log == if fate == FailsBefore then old(log) else Finish(old(log), status)
      ensures ok && status == Success ==> Succeeded(run) && run[|run| - 2] == old(Now())
    {
      hide Run, Activity, Others, Start, Finish;
      ghost var w := Now();
      FinishIsActivity(w);
      if fate != FailsBefore {
        log := Finish(log, status);
      }
      pc := Idle;
      ok := fate.Succeeds?;
      if fate == FailsBefore {
        Fails(w, w, Now());
      }
      Take();
      assert run[|run| - 2] == w;
    }

    method ClearArgs(fate: Fate) returns (ok: bool)
      requires Valid() && pc.Saved?
      modifies this`sync, this`source, this`clock, this`apiReads, this`pc, this`run, writer`rows
      ensures Valid() && old(run) <= run && ok == fate.Succeeds? && sync.state == old(sync).state
      ensures ok ==> pc == Cleared(old(pc).sync, old(pc).strategy, old(pc).source, old(pc).clock) && !sync.performFullRefresh
      ensures !ok ==> pc == Failing
      ensures old(clock) <= clock && old(pc).clock <= clock
    {
      hide Run, Activity, Others, Start;
      Yield();
      assert pc.clock <= clock by { StampsAlways(run, |run| - 1); }
      ghost var w := Now();
      ClearIsActivity(w);
      if fate != FailsBefore {
        sync := sync.(performFullRefresh := false);
        pc := Cleared(pc.sync, pc.strategy, pc.source, pc.clock);
      }
      ok := fate.Succeeds?;
      if ok {
        Take();
      } else {
        ghost var mid := Now();
        pc := Failing;
        Fails(w, mid, Now());
        Take();
      }
    }

    method TryBlock(copy: Sync, strategy: RunStrategy, f: Fates) 
      returns (numRecordsSynced: Option<nat>, ghost stream: seq<Record>, ghost tried: seq<nat>)
      requires Valid() && pc == Started(copy, strategy)
      modifies this`sync, this`source, this`clock, this`apiReads, this`fulls, this`pc, this`run, writer
      ensures Valid() && old(run) <= run && old(clock) <= clock
      ensures numRecordsSynced.Some? ==>
        && pc.Cleared? && old(clock) <= pc.clock <= clock
        && numRecordsSynced.value == |stream| && IsStream(pc.source, AsksSince(copy.state, strategy), stream)
        && SavedState(if strategy == Full then None else Watermark(copy.state), sync.state, copy, strategy, stream)
      ensures numRecordsSynced.None? ==> pc == Failing
      ensures var delete := Deletes(job, AsksSince(copy.state, strategy));
              && (if f.begin.Succeeds? then tried != [] && Tried(f.attempts, tried, delete) else tried == [])
              && (numRecordsSynced.Some? <==> LastWorks(f.attempts, tried, delete) && f.save.Succeeds? && f.clear.Succeeds?)
    {
      hide Run, IsStream, SavedState, Tried, LastWorks, Deletes;
      if strategy == Full {
        numRecordsSynced, stream, tried := DoFullSync(copy, f);
      } else {
        numRecordsSynced, stream, tried := DoIncrementalSync(copy, f);
      }
      if numRecordsSynced.Some? {
        var ok := ClearArgs(f.clear);
        if !ok {
          numRecordsSynced := None;
        }
      }
    }

    /** The end of a run that worked: what the destination then holds. */
    method FinishInSuccess(fate: Fate) returns (ok: bool)
      requires Valid() && pc.Cleared? && log != []
      modifies this`sync, this`source, this`clock, this`apiReads, this`log, this`pc, this`run, writer`rows
      ensures Valid() && old(run) <= run && pc == Idle && ok == fate.Succeeds? && sync.state == old(sync).state
      ensures log == if fate == FailsBefore then old(log) else Finish(old(log), Success)
      ensures Since(old(pc).source, old(pc).clock, source) && old(pc).clock <= clock
      ensures ok ==> forall b :: 0 <= b < |run| && Trusted(run, b) ==> Holds(job, writer.rows, source, Some(old(pc).clock))
      ensures ok ==> forall b :: 0 <= b < |run| && Trusted(run, b) && CurrentBetween(run, b, |run| - 1) ==>
                forall id :: id in old(pc).source ==> HasVersionOrLater(job, writer.rows, id, old(pc).source[id])
    {
      hide Run, Trusted, CurrentBetween, Holds, HasVersionOrLater, Since;
      Yield();
      StampsAlways(run, |run| - 1);
      hide StampInv;
      ok := LogSyncFinish(Success, fate);
      if ok {
        SuccessPromises(run);
      }
    }

    method FinishInFailure(fate: Fate)
      requires Valid() && pc.Failing? && log != []
      modifies this`sync, this`source, this`clock, this`apiReads, this`log, this`pc, this`run, writer`rows
      ensures Valid() && old(run) <= run && pc == Idle
      ensures log == if fate == FailsBefore then old(log) else Finish(old(log), Failure)
    {
      hide Run;
      Yield();
      var _ := LogSyncFinish(Failure, fate);
    }

    /** The whole workflow. When it succeeds, the run is logged with the pass the sync it
        read called for, the phase says so too, and as long as the API's upserts were
        harmless since some beginning, the destination holds every record that has not
        changed since it was fetched, and of every record fetched that version or, with
        no outdated upsert either, a later one. Otherwise the run is logged as failed, or
        as running for ever, or not at all. */
    method RunObjectSync(f: Fates)
      returns (ok: bool, numRecordsSynced: nat, ghost read: Sync, ghost at: Source, ghost when: int,
               ghost stream: seq<Record>, ghost tried: seq<nat>)
      requires Valid() && pc == Idle
      modifies this, writer
      ensures Valid() && old(run) <= run && pc == Idle
      ensures ok ==> Since(at, when, source) && old(clock) <= when <= clock
      ensures ok ==> forall b :: 0 <= b < |run| && Trusted(run, b) ==> Holds(job, writer.rows, source, Some(when))
      ensures ok ==> forall b :: 0 <= b < |run| && Trusted(run, b) && CurrentBetween(run, b, |run| - 1) ==>
                forall id :: id in at ==> HasVersionOrLater(job, writer.rows, id, at[id])
      ensures ok ==>
        && read.state == old(sync).state
        && log == old(log) + [LogEntry(GetSyncStrategy(read, old(log)), Success)]
        && var strategy, stored := GetSyncStrategy(read, old(log)), old(sync).state;
        && numRecordsSynced == |stream| && IsStream(at, AsksSince(stored, strategy), stream)
        && SavedState(if strategy == Full then None else Watermark(stored), sync.state, read, strategy, stream)
      ensures tried != [] ==>
        && f.getSync.Succeeds? && f.getSyncStrategy.Succeeds? && f.logSyncStart.Succeeds? && f.begin.Succeeds?
        && Tried(f.attempts, tried, Deletes(job, AsksSince(old(sync).state, GetSyncStrategy(read, old(log)))))
      ensures f.getSync.Succeeds? && f.getSyncStrategy.Succeeds? && f.logSyncStart.Succeeds? && f.begin.Succeeds? ==> tried != []
      ensures ok <==>
        && LastWorks(f.attempts, tried, Deletes(job, AsksSince(old(sync).state, GetSyncStrategy(read, old(log)))))
        && f.save.Succeeds? && f.clear.Succeeds? && f.logSyncFinish.Succeeds?
      ensures !ok ==> log == old(log) || exists s, status :: log == old(log) + [LogEntry(s, status)]
      ensures f.getSync.Succeeds? && f.getSyncStrategy.Succeeds? && f.logSyncStart.Succeeds? && f.logSyncFinish.Succeeds? ==>
        log == old(log) + [LogEntry(GetSyncStrategy(read, old(log)), if ok then Success else Failure)]
    {
      hide Run, GetSyncStrategy, Trusted, CurrentBetween, Holds, HasVersionOrLater, Since, Finish, IsStream, SavedState, AsksSince, Tried, Deletes;
      ok, numRecordsSynced, read, at, when, stream, tried := false, 0, sync, source, clock, [], [];
      var started := StartRun(f);
      if started.None? {
        return;
      }
      var copy, strategy := started.value.0, started.value.1;
      read := copy;
      var synced;
      synced, stream, tried := TryBlock(copy, strategy, f);
      Finished(old(log), strategy);
      if synced.None? {
        FinishInFailure(f.logSyncFinish);
        return;
      }
      numRecordsSynced := synced.value;
      at, when := pc.source, pc.clock;
      ok := FinishInSuccess(f.logSyncFinish);
    }
  }
}
