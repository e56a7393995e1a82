/** Foreign keys and unique indexes hold in every run, whatever is written; so at any
    moment the outbox invariant, for a worker that is to start over, says no more and no
    less than that no sync and no connection is forgotten. */
module OutboxTables {
  import opened StringHash
  import opened SyncTypes
  import opened Reconcile
  import opened Outbox
  import opened OutboxInvariant
  import opened OutboxWriters
  import opened OutboxWorker
  import opened OutboxSafeWrites
  import opened OutboxTheorems
  import opened OutboxOffsets

  /** Connection and config of a task, as far as they are still there, belong together. */
  ghost predicate TaskKept(st: Store, t: Task) {
    && t.connection in st.seen
    && (t.config.Some? ==> t.config.value < st.next)
    && (t.config.Some? && t.config.value in st.configs && t.connection in st.connections ==>
          st.configs[t.config.value].provider == st.connections[t.connection].provider)
  }

  ghost predicate ConfigKept(st: Store, g: Id, config: SyncConfig) {
    g < st.next && (g in st.configs ==> st.configs[g].provider == config.provider)
  }

  ghost predicate ConnectionKept(st: Store, c: ConnectionId, connection: Connection) {
    c in st.seen && (c in st.connections ==> st.connections[c].provider == connection.provider)
  }

  /** What the worker has read of connections and configs keeps its providers. */
  ghost predicate ReadsKept(st: Store, w: Worker) {
    match w
    case ReadConfigs(_, _, connections) => forall c :: c in connections ==> ConnectionKept(st, c, connections[c])
    case Reconciling(_, _, part, todo, _) =>
      && (forall t :: t in todo ==> TaskKept(st, t))
      && (part.Two? ==> forall g :: g in part.configs ==> ConfigKept(st, g, part.configs[g]))
    case _ => true
  }

  ghost predicate TablesInv(st: Store, w: Worker) {
    Tables(st) && OffsetInv(st, w) && ReadsKept(st, w)
  }

  // ---- Writers

  /** Connections and configs keep their providers, and their ids are not reused. */
  ghost predicate ParentsFollow(st: Store, st': Store) {
    && st.next <= st'.next && st.seen <= st'.seen
    && (forall g :: g in st'.configs ==> (g in st.configs && st'.configs[g].provider == st.configs[g].provider) || g >= st.next)
    && (forall c :: c in st'.connections ==>
          (c in st.connections && st'.connections[c].provider == st.connections[c].provider) || c !in st.seen)
  }

  lemma FollowingKeepsReads(st: Store, st': Store, w: Worker)
    requires ReadsKept(st, w) && ParentsFollow(st, st')
    ensures ReadsKept(st', w)
  {
    forall t | TaskKept(st, t) ensures TaskKept(st', t) {
    }
    forall g, config | ConfigKept(st, g, config) ensures ConfigKept(st', g, config) {
    }
    forall c, connection | ConnectionKept(st, c, connection) ensures ConnectionKept(st', c, connection) {
    }
    hide TaskKept, ConfigKept, ConnectionKept, ParentsFollow;
  }

  /** Neither connections nor configs are written. */
  ghost predicate ParentsLeft(st: Store, st': Store) {
    st'.configs == st.configs && st'.connections == st.connections && st'.seen == st.seen && st.next <= st'.next
  }

  lemma InsertLeavesParents(st: Store, t: Task)
    requires Ids(st) && t.config.Some?
    ensures ParentsLeft(st, CreateSyncs(st, t))
  {
    hide CreateMany;
  }

  lemma RecordLeavesParents(st: Store, c: ConnectionId)
    requires Ids(st)
    ensures ParentsLeft(st, AddSyncChanges(st, c))
  {
    hide AddChanges;
  }

  lemma CreationParents(st: Store, c: ConnectionId, customer: Id, provider: Id, config: Option<Id>, paused: bool)
    requires Ids(st) && Enabled(st, CreateConnection(c, customer, provider, config, paused))
    ensures ParentsFollow(st, Apply(st, CreateConnection(c, customer, provider, config, paused)))
  {
    var st1 := WithConnection(st, c, customer, provider);
    if config.Some? {
      assert config.value in st.configs && c !in st.seen;
      var t := Task(c, config, ConnectionArgs(st.configs[config.value].data, paused));
      hide Apply, Enabled, Ids, CreateSyncs, AddSyncChanges, ConnectionArgs;
      CreatedInSteps(st, c, customer, provider, config.value, paused);
      InsertLeavesParents(st1, t);
      RecordLeavesParents(CreateSyncs(st1, t), c);
    } else {
      hide Ids, CreateSyncs, AddSyncChanges, ConnectionArgs, Connected;
    }
  }

  lemma FewerParents(st: Store, a: Write)
    requires Ids(st) && Enabled(st, a) && (a.DeleteConnection? || a.DeleteConfig? || a.CascadeDelete?)
    ensures ParentsFollow(st, Apply(st, a))
  {
    hide AddChanges, Cascades, RowsOf, RowsOfConfig;
  }

  lemma RowsLeaveParents(st: Store, a: Write)
    requires Ids(st) && Enabled(st, a) && !a.CreateConnection? && !a.UpsertConnection?
    requires !a.DeleteConnection? && !a.DeleteConfig? && !a.CascadeDelete?
    ensures ParentsFollow(st, Apply(st, a))
  {
  }

  lemma WriteParents(st: Store, a: Write)
    requires Ids(st) && Enabled(st, a)
    ensures ParentsFollow(st, Apply(st, a))
  {
    if a.CreateConnection? {
      hide *;
      CreationParents(st, a.c, a.customer, a.provider, a.config, a.paused);
    } else if a.UpsertConnection? {
      hide Ids, Connected;
    } else if a.DeleteConnection? || a.DeleteConfig? || a.CascadeDelete? {
      hide *;
      FewerParents(st, a);
    } else {
      hide *;
      RowsLeaveParents(st, a);
    }
  }

  lemma WriteTables(st: Store, a: Write)
    requires Tables(st) && Offsets(st) && Enabled(st, a)
    ensures Tables(Apply(st, a))
  {
    hide Tables, Offsets, Apply;
    match a {
      case CreateConnection(c, customer, provider, config, paused) => CreateConnectionTables(st, c, customer, provider, config, paused);
      case UpsertConnection(c, customer, provider) => UpsertTables(st, c, customer, provider);
      case DeleteConnection(c) => DeleteConnectionTables(st, c);
      case DeleteConfig(g) => DeleteConfigTables(st, g);
      case SetPaused(_, _) => RowWriteTables(st, a);
      case SetRunState(_, _, _) => RowWriteTables(st, a);
      case RequestFull => FlagTables(st, a);
      case Tamper(_, _) => FlagTables(st, a);
      case CascadeDelete(gone, goneConfigs, entities) =>
        TablesHaveIds(st);
        CascadeIsCascaded(st, gone, goneConfigs, entities);
        CascadeTables(st, Apply(st, a), gone, goneConfigs, entities);
      case _ => ParentWriteTables(st, a);
    }
  }

  lemma TablesHaveIds(st: Store)
    requires Tables(st)
    ensures Ids(st)
  {
    hide Ids;
  }

  lemma UpsertTables(st: Store, c: ConnectionId, customer: Id, provider: Id)
    requires Tables(st) && Enabled(st, UpsertConnection(c, customer, provider))
    ensures Tables(Apply(st, UpsertConnection(c, customer, provider)))
  {
    hide Tables, Connected, WithConnection;
    if !Connected(st.connections, customer, provider) {
      WithConnectionTables(st, c, customer, provider);
    }
  }

  // ---- The worker

  /** Inserting syncs for a task either inserts nothing, or finds its parents. */
  lemma InsertTables(st: Store, t: Task)
    requires Tables(st) && t.config.Some? && CanCreate(st, t) && TaskKept(st, t)
    ensures Tables(CreateSyncs(st, t))
  {
    if t.config.value in st.configs && t.connection in st.connections {
      hide Tables;
      CreateSyncsTables(st, t);
    } else {
      CreateSyncsIds(st, t);
      hide UniqueKeys, Ids, CreateMany;
    }
  }

  lemma WriteSyncsTables(st: Store, w: Worker, st': Store, w': Worker)
    requires Tables(st) && Offsets(st) && ReadsKept(st, w) && WriteSyncs(st, w, st', w')
    ensures Tables(st')
  {
    hide Tables, Offsets, CanCreate, CreateSyncs, AddSyncChanges, DeleteSyncs, TaskKept, ConfigKept;
    match w.stage {
      case Create => InsertTables(st, w.todo[0]);
      case Change => AddSyncChangesTables(st, w.todo[0].connection);
      case Delete => DeleteTables(st, w, st', w');
    }
  }

  lemma WriteSchedulesTables(st: Store, w: Worker, st': Store, w': Worker)
    requires Tables(st) && OffsetInv(st, w) && WriteSchedules(st, w, st', w')
    ensures Tables(st')
  {
    if w.Upserting? {
      hide Tables, StrategyOf, OffsetInv;
      var row := w.plan.rows[w.left[0]];
      StrategyAnnounced(st, w.left[0], StrategyOf(w.plan.configs[row.config].data, row.key), IsFull(w));
    } else {
      PlannedBelow(st, w);
      hide Tables, OffsetInv;
      if w.Scheduling? {
        assert w.left[0] < st.next;
        UpsertsOne(st, w, st', w');
      } else {
        RemovesAtMost(st, w, st', w');
      }
      hide WriteSchedules;
      ScheduleTables(st, st');
    }
  }

  lemma RemovesAtMost(st: Store, w: Worker, st': Store, w': Worker)
    requires (w.Pausing? || w.Deleting?) && WriteSchedules(st, w, st', w')
    ensures st' == st.(schedules := st'.schedules) && forall s :: s in st'.schedules ==> s in st.schedules
  {
  }

  lemma UpsertsOne(st: Store, w: Worker, st': Store, w': Worker)
    requires w.Scheduling? && WriteSchedules(st, w, st', w')
    ensures st' == st.(schedules := st'.schedules) && forall s :: s in st'.schedules ==> s in st.schedules || s == w.left[0]
  {
    hide PeriodOf, StringToNumber;
  }

  lemma PlannedBelow(st: Store, w: Worker)
    requires OffsetInv(st, w)
    ensures forall s :: s in PlannedRows(w) ==> s < st.next
  {
    hide PlannedRows;
  }

  lemma FinishPartTables(st: Store, w: Worker, st': Store, w': Worker)
    requires Tables(st) && FinishPart(st, w, st', w')
    ensures Tables(st')
  {
    hide UniqueKeys;
  }

  lemma WriteSyncsParents(st: Store, w: Worker, st': Store, w': Worker)
    requires Ids(st) && WriteSyncs(st, w, st', w')
    ensures ParentsLeft(st, st')
  {
    hide CreateSyncs, AddSyncChanges, CanCreate, Ids, DeleteUnwanted;
    match w.stage {
      case Create => InsertLeavesParents(st, w.todo[0]);
      case Change => RecordLeavesParents(st, w.todo[0].connection);
      case Delete =>
    }
  }

  lemma WriteSchedulesParents(st: Store, w: Worker, st': Store, w': Worker)
    requires WriteSchedules(st, w, st', w') || FinishPart(st, w, st', w')
    ensures ParentsLeft(st, st')
  {
    hide UpsertSchedule, StrategyOf, PeriodOf;
  }

  lemma WorkerParents(st: Store, w: Worker, st': Store, w': Worker)
    requires Ids(st) && (WriteSyncs(st, w, st', w') || WriteSchedules(st, w, st', w') || FinishPart(st, w, st', w'))
    ensures ParentsFollow(st, st')
  {
    hide Ids, WriteSyncs, WriteSchedules, FinishPart;
    if WriteSyncs(st, w, st', w') {
      WriteSyncsParents(st, w, st', w');
    } else {
      WriteSchedulesParents(st, w, st', w');
    }
  }

  lemma WorkerReads(st: Store, w: Worker, st': Store, w': Worker)
    requires Ids(st) && ReadsKept(st, w) && (WriteSyncs(st, w, st', w') || WriteSchedules(st, w, st', w') || FinishPart(st, w, st', w'))
    ensures ReadsKept(st, w')
  {
    hide TaskKept, ConfigKept, ConnectionKept, CreateSyncs, AddSyncChanges, DeleteSyncs, CanCreate, UpsertSchedule, StrategyOf, PeriodOf, Ids;
  }

  lemma QueryReads(st: Store, w: Worker, w': Worker)
    requires Tables(st) && ReadsKept(st, w) && (QueryOne(st, w, w') || QueryTwo(st, w, w') || QueryThree(st, w, w'))
    ensures ReadsKept(st, w')
  {
    hide UniqueKeys, Listed, Desired;
  }

  lemma WorkerKeepsTables(st: Store, w: Worker, st': Store, w': Worker)
    requires Ids(st) && TablesInv(st, w) && WorkerStep(st, w, st', w')
    ensures TablesInv(st', w')
  {
    assert Offsets(st);
    WorkerKeepsOffsets(st, w, st', w');
    hide Tables, Offsets, OffsetInv, ReadsKept, QueryOne, QueryTwo, QueryThree, WriteSyncs, WriteSchedules, FinishPart, ParentsFollow, Ids;
    if WriteSyncs(st, w, st', w') || WriteSchedules(st, w, st', w') || FinishPart(st, w, st', w') {
      WorkerReads(st, w, st', w');
      WorkerParents(st, w, st', w');
      FollowingKeepsReads(st, st', w');
      if WriteSyncs(st, w, st', w') {
        WriteSyncsTables(st, w, st', w');
      } else if WriteSchedules(st, w, st', w') {
        WriteSchedulesTables(st, w, st', w');
      } else {
        FinishPartTables(st, w, st', w');
      }
    } else {
      QueryReads(st, w, w');
    }
  }

  lemma WriteKeepsTables(st: Store, w: Worker, a: Write)
    requires Ids(st) && TablesInv(st, w) && Enabled(st, a)
    ensures TablesInv(Apply(st, a), w)
  {
    assert Offsets(st);
    hide Tables, Offsets, OffsetInv, ReadsKept, ParentsFollow, Enabled, Apply, Ids;
    WriteTables(st, a);
    WriteParents(st, a);
    FollowingKeepsReads(st, Apply(st, a), w);
    WriteKeepsOffsets(st, w, a);
  }

  lemma StopKeepsTables(st: Store, w: Worker)
    requires TablesInv(st, w)
    ensures TablesInv(st, Idle)
  {
    hide Tables, OffsetInv;
    StopKeepsOffsets(st, w);
  }

  lemma NextKeepsTables(st: Store, w: Worker, st': Store, w': Worker)
    requires Ids(st) && TablesInv(st, w) && Next(st, w, st', w')
    ensures TablesInv(st', w')
  {
    hide *;
    if WorkerStep(st, w, st', w') {
      WorkerKeepsTables(st, w, st', w');
    } else if st' == st && w' == Idle {
      StopKeepsTables(st, w);
    } else {
      var a := TheWrite(st, w, st', w');
      WriteKeepsTables(st, w, a);
    }
  }

  lemma {:induction false} TablesAlways(run: seq<Moment>, i: nat)
    requires Run(run) && Start(run[0]) && i < |run|
    ensures TablesInv(run[i].store, run[i].worker)
  {
    hide Next, Ids, TablesInv;
    if i == 0 {
      StartHasTables(run[0]);
    } else {
      TablesAlways(run, i - 1);
      NextKeepsTables(run[i - 1].store, run[i - 1].worker, run[i].store, run[i].worker);
    }
  }

  lemma StartHasTables(m: Moment)
    requires Start(m)
    ensures TablesInv(m.store, m.worker)
  {
  }

  // ---- The invariant, seen from outside

  /** No sync and no connection is forgotten. */
  ghost predicate AllSafe(st: Store) {
    && (forall s :: ScheduleSafe(st, s))
    && (forall g, c :: Serves(st, g, c) ==> SyncsSafe(st, g, c))
  }

  lemma SafeIsInv(st: Store)
    requires Tables(st) && Offsets(st) && AllSafe(st)
    ensures Inv(st, Idle)
  {
    hide Tables, Offsets, Pending, Agrees, Matches, Desired;
    forall s | s in st.rows ensures RowCovered(st, Idle, s) {
      assert ScheduleSafe(st, s);
    }
    forall s | s in st.schedules && s !in st.rows ensures SyncPending(st, Idle, s) {
      assert ScheduleSafe(st, s);
    }
    forall c, g | Serves(st, g, c) ensures SyncsSafe(st, g, c) {
    }
  }

  /** At any moment of any run, whatever has been written: the outbox invariant holds for
      a worker that starts over exactly when no sync and no connection is forgotten. */
  lemma InvIffSafe(run: seq<Moment>, i: nat)
    requires Run(run) && Start(run[0]) && i < |run|
    ensures Inv(run[i].store, Idle) <==> AllSafe(run[i].store)
  {
    TablesAlways(run, i);
    var st := run[i].store;
    assert Tables(st) && Offsets(st);
    hide Run, Start, Inv, Tables, Offsets, ScheduleSafe, SyncsSafe;
    if Inv(st, Idle) {
      InvIsSafe(st, Idle);
    } else if AllSafe(st) {
      SafeIsInv(st);
    }
  }

  /** At any moment of any run, whatever has been forgotten: with a full pass requested
      everything is safe again exactly when every schedule without a row has an event. */
  lemma RequestRepairsIff(run: seq<Moment>, i: nat)
    requires Run(run) && Start(run[0]) && i < |run|
    ensures var st := run[i].store.(full := true);
            Inv(st, Idle) <==> forall s :: s in st.schedules && s !in st.rows ==> Pending(st.syncChanges, {}, s)
  {
    TablesAlways(run, i);
    FlagKeepsTables(run[i].store);
    var st := run[i].store.(full := true);
    hide Run, Start, Tables, Offsets, Pending, Agrees, Matches, Desired;
    if forall s :: s in st.schedules && s !in st.rows ==> Pending(st.syncChanges, {}, s) {
      SafeIsInv(st);
    }
  }

  lemma FlagKeepsTables(st: Store)
    requires Tables(st) && Offsets(st)
    ensures Tables(st.(full := true)) && Offsets(st.(full := true))
  {
    hide UniqueKeys, StringToNumber;
  }
}
