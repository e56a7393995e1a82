/** What the outbox invariant gives, over every run of writers and worker. */
module OutboxTheorems {
  import opened SyncTypes
  import opened Reconcile
  import opened Outbox
  import opened OutboxInvariant
  import opened OutboxWriters
  import opened OutboxWorker
  import opened OutboxSafeWrites

  datatype Moment = Moment(store: Store, worker: Worker)

  /** Consecutive moments are one step apart: a query or write of the worker, a
      failure of the worker, or a writer's transaction. */
  ghost predicate Run(run: seq<Moment>) {
    && run != []
    && (forall i :: 0 <= i < |run| ==> Ids(run[i].store))
    && (forall i :: 0 < i < |run| ==> Next(run[i - 1].store, run[i - 1].worker, run[i].store, run[i].worker))
  }

  /** A new installation. */
  ghost predicate Start(m: Moment) {
    && m.store.connections == map[] && m.store.configs == map[] && m.store.rows == map[] && m.store.schedules == map[]
    && m.store.connectionChanges == map[] && m.store.configChanges == map[] && m.store.syncChanges == map[]
    && m.worker == Idle
  }

  lemma StartKeepsInv(m: Moment)
    requires Start(m)
    ensures Inv(m.store, m.worker)
  {
  }

  lemma NextKeepsInv(st: Store, w: Worker, st': Store, w': Worker)
    requires Ids(st) && Inv(st, w) && Next(st, w, st', w')
    requires forall a :: Writes(st, w, st', w', a) ==> SafeWrite(st, w, a)
    ensures Inv(st', w')
  {
    hide *;
    if WorkerStep(st, w, st', w') {
      WorkerKeepsInv(st, w, st', w');
    } else if st' == st && w' == Idle {
      StopKeepsInv(st, w);
    } else {
      var a := TheWrite(st, w, st', w');
      WriteIsSafe(st, st', w, a);
    }
  }

  lemma InvHasIds(st: Store, w: Worker)
    requires Inv(st, w)
    ensures Ids(st)
  {
    hide UniqueKeys, Offsets, Fresh, Backed, Covered, NoOrphans, Matched;
  }

  lemma TheWrite(st: Store, w: Worker, st': Store, w': Worker) returns (a: Write)
    requires Ids(st) && Next(st, w, st', w') && !WorkerStep(st, w, st', w') && !(st' == st && w' == Idle)
    ensures Writes(st, w, st', w', a) && w' == w && st' == Apply(st, a)
  {
    hide Ids, WorkerStep, Enabled, Apply;
    a :| Enabled(st, a) && st' == Apply(st, a);
  }

  ghost predicate Writes(st: Store, w: Worker, st': Store, w': Worker, a: Write)
    requires Ids(st)
    ensures Writes(st, w, st', w', a) ==> Enabled(st, a)
  {
    w' == w && Enabled(st, a) && st' == Apply(st, a)
  }

  ghost predicate WritesAt(run: seq<Moment>, i: nat, a: Write)
    requires Run(run) && 0 < i < |run|
    ensures WritesAt(run, i, a) ==> Enabled(run[i - 1].store, a)
  {
    Writes(run[i - 1].store, run[i - 1].worker, run[i].store, run[i].worker, a)
  }

  /** Every change by hand, every cascading deletion and every upsert of a connection
      comes when it is safe; all other writes always are. */
  ghost predicate Careful(run: seq<Moment>)
    requires Run(run)
  {
    forall i, a :: 0 < i < |run| && WritesAt(run, i, a) ==> SafeWrite(run[i - 1].store, run[i - 1].worker, a)
  }

  lemma {:induction false} InvAlways(run: seq<Moment>, i: nat)
    requires Run(run) && Start(run[0]) && Careful(run) && i < |run|
    ensures Inv(run[i].store, run[i].worker)
  {
    hide Inv, Next, Ids, SafeWrite, Start, Writes;
    if i == 0 {
      hide Run;
      StartKeepsInv(run[0]);
    } else {
      InvAlways(run, i - 1);
      var before, after := run[i - 1], run[i];
      forall a | Writes(before.store, before.worker, after.store, after.worker, a) ensures SafeWrite(before.store, before.worker, a) {
        assert WritesAt(run, i, a);
      }
      NextKeepsInv(before.store, before.worker, after.store, after.worker);
    }
  }

  /** Over whole runs: the invariant holds throughout exactly when no unsafe write
      comes in, so only those can make a sync be forgotten. */
  lemma InvHoldsIffCareful(run: seq<Moment>)
    requires Run(run) && Start(run[0])
    ensures (forall i :: 0 <= i < |run| ==> Inv(run[i].store, run[i].worker)) <==> Careful(run)
  {
    hide Inv, Next, Ids, SafeWrite, Start, Apply, Enabled;
    if Careful(run) {
      forall i | 0 <= i < |run| ensures Inv(run[i].store, run[i].worker) {
        InvAlways(run, i);
      }
    } else {
      var i, a :| 0 < i < |run| && WritesAt(run, i, a) && !SafeWrite(run[i - 1].store, run[i - 1].worker, a);
      if Inv(run[i - 1].store, run[i - 1].worker) {
        WriteIsSafe(run[i - 1].store, run[i].store, run[i].worker, a);
      }
    }
  }

  // ---- Safety

  /** The schedule of s agrees with the row of s, or what would make it agree is
      still recorded: an event for the sync, its config or its connection, or the
      request of a full pass. A schedule without a row has an event of its own. */
  ghost predicate ScheduleSafe(st: Store, s: Id) {
    if s in st.rows then Agrees(st, s) || AnyEvent(st, s) || st.full
    else s in st.schedules ==> Pending(st.syncChanges, {}, s)
  }

  /** The syncs of c are those config g asks for, or that is recorded as due. */
  ghost predicate SyncsSafe(st: Store, g: Id, c: ConnectionId)
    requires Serves(st, g, c)
  {
    || Matches(st, c, Desired(st.configs[g].data, st.connections[c].override))
    || Pending(st.connectionChanges, {}, c) || Pending(st.configChanges, {}, g) || st.full
  }

  lemma InvIsSafe(st: Store, w: Worker)
    requires Inv(st, w)
    ensures forall s :: ScheduleSafe(st, s)
    ensures forall g, c :: Serves(st, g, c) ==> SyncsSafe(st, g, c)
  {
    hide Pending, Matches, Agrees, Tables, Offsets;
    StopCovered(st, w);
    StopNoOrphans(st, w);
    StopMatched(st, w);
    hide Backed, Fresh;
    forall s ensures ScheduleSafe(st, s) {
      if s in st.rows {
        assert RowCovered(st, Idle, s);
      }
    }
  }

  /** At every moment of every run, wherever the worker is and however often it
      failed, no sync and no connection is forgotten. */
  lemma OutboxSafety(run: seq<Moment>, i: nat, s: Id, g: Id, c: ConnectionId)
    requires Run(run) && Start(run[0]) && Careful(run) && i < |run|
    ensures ScheduleSafe(run[i].store, s)
    ensures Serves(run[i].store, g, c) ==> SyncsSafe(run[i].store, g, c)
  {
    InvAlways(run, i);
    InvIsSafe(run[i].store, run[i].worker);
  }

  // ---- Convergence

  predicate QueuesEmpty(st: Store) {
    st.connectionChanges == map[] && st.configChanges == map[] && st.syncChanges == map[] && !st.full
  }

  /** Schedules and rows are in bijection and agree, and every connection that
      has a config has exactly the object syncs it asks for, all the entity syncs
      it asks for, and none when it asks for none. */
  ghost predicate Converged(st: Store) {
    && st.schedules.Keys == st.rows.Keys
    && (forall s :: s in st.rows ==> Agrees(st, s))
    && (forall g, c :: Serves(st, g, c) ==> ExactFor(st, c, Desired(st.configs[g].data, st.connections[c].override)))
  }

  ghost predicate ExactFor(st: Store, c: ConnectionId, args: seq<SyncArgs>) {
    && (forall k: SyncKey :: k.ObjectKey? ==> (HasKey(st.rows, c, k) <==> HasArg(args, k)))
    && (forall k: SyncKey :: HasArg(args, k) ==> HasKey(st.rows, c, k))
    && (!WantsEntities(args) ==> forall k: SyncKey :: k.EntityKey? ==> !HasKey(st.rows, c, k))
  }

  lemma MatchesExactly(st: Store, c: ConnectionId, args: seq<SyncArgs>)
    requires Matches(st, c, args)
    ensures ExactFor(st, c, args)
  {
    forall k: SyncKey | HasKey(st.rows, c, k) ensures HasArg(args, k) || (k.EntityKey? && WantsEntities(args)) {
      var s :| s in st.rows && st.rows[s].connection == c && st.rows[s].key == k;
      assert KeptBy(args, st.rows[s].key);
    }
  }

  lemma SafeScheduleAgrees(st: Store, s: Id)
    requires QueuesEmpty(st) && ScheduleSafe(st, s)
    ensures s in st.rows <==> s in st.schedules
    ensures s in st.rows ==> Agrees(st, s)
  {
    hide PeriodOf, StrategyOf;
  }

  lemma SafeSyncsAreExact(st: Store, g: Id, c: ConnectionId)
    requires QueuesEmpty(st) && Serves(st, g, c) && SyncsSafe(st, g, c)
    ensures ExactFor(st, c, Desired(st.configs[g].data, st.connections[c].override))
  {
    hide Matches, ExactFor, Desired;
    MatchesExactly(st, c, Desired(st.configs[g].data, st.connections[c].override));
  }

  /** When nothing is recorded and no pass is running, everything is in line. */
  lemma NothingRecordedIsConverged(st: Store)
    requires Inv(st, Idle) && QueuesEmpty(st)
    ensures Converged(st)
  {
    hide Inv, Agrees, ExactFor, ScheduleSafe, SyncsSafe, QueuesEmpty, Desired;
    InvIsSafe(st, Idle);
    forall s ensures (s in st.rows <==> s in st.schedules) && (s in st.rows ==> Agrees(st, s)) {
      SafeScheduleAgrees(st, s);
    }
    forall g, c | Serves(st, g, c) ensures ExactFor(st, c, Desired(st.configs[g].data, st.connections[c].override)) {
      SafeSyncsAreExact(st, g, c);
    }
  }

  /** At any quiet moment of any run the whole system is in line. */
  lemma QuietIsConverged(run: seq<Moment>, i: nat)
    requires Run(run) && Start(run[0]) && Careful(run) && i < |run| && run[i].worker == Idle && QueuesEmpty(run[i].store)
    ensures Converged(run[i].store)
  {
    hide Run, Start, Inv, QueuesEmpty, Converged;
    InvAlways(run, i);
    NothingRecordedIsConverged(run[i].store);
  }
}
