/** The worker's writes keep the outbox invariant. */
module OutboxWorker {
  import opened StringHash
  import opened SyncTypes
  import opened Reconcile
  import opened Outbox
  import opened OutboxInvariant
  import opened OutboxWriters

  // ---- Inserting syncs for the first task

  /** What the insertion changes: only rows of the first task's connection and
      config are added, under new ids. */
  ghost predicate RowsAdded(st: Store, w: Worker, st': Store, w': Worker) {
    && w.Reconciling? && w.todo != [] && w.stage == Create
    && w' == Reconciling(w.full, w.ids, w.part, w.todo, Change)
    && st.next <= st'.next && st' == st.(rows := st'.rows, next := st'.next)
    && (forall s :: s in st.rows ==> s in st'.rows && st'.rows[s] == st.rows[s])
    && (forall s :: s in st'.rows && s !in st.rows ==>
          && st.next <= s < st'.next
          && w.todo[0].config == Some(st'.rows[s].config) && st'.rows[s].connection == w.todo[0].connection
          && Serves(st, st'.rows[s].config, st'.rows[s].connection))
    && (forall k :: HasArg(w.todo[0].args, k) ==> HasKey(st'.rows, w.todo[0].connection, k))
  }

  lemma CreateAddsRows(st: Store, w: Worker, st': Store, w': Worker)
    requires Tables(st) && Fresh(st, w) && WriteSyncs(st, w, st', w') && w.stage == Create
    ensures RowsAdded(st, w, st', w') && UniqueKeys(st'.rows)
  {
    var t := w.todo[0];
    CreateManyKeys(st.rows, t.connection, t.config.value, t.args, st.next);
    assert TaskFresh(st, w, t);
  }

  lemma AddedTables(st: Store, w: Worker, st': Store, w': Worker)
    requires Tables(st) && Offsets(st) && RowsAdded(st, w, st', w') && UniqueKeys(st'.rows)
    ensures Tables(st') && Offsets(st')
  {
    hide UniqueKeys;
  }

  lemma AddedCovered(st: Store, w: Worker, st': Store, w': Worker)
    requires Covered(st, w) && RowsAdded(st, w, st', w')
    ensures Covered(st', w')
  {
    hide Pending, Serves, HasKey, HasArg;
    forall s | s in st'.rows ensures RowCovered(st', w', s) {
      if s in st.rows {
        assert RowCovered(st, w, s);
      }
    }
  }

  lemma AddedBacked(st: Store, w: Worker, st': Store, w': Worker)
    requires Backed(st, w) && Ids(st) && RowsAdded(st, w, st', w')
    ensures Backed(st', w')
  {
    hide Pending, HasKey, HasArg;
    assert Listed(w.todo, w.todo[0].connection);
    forall s | s in st'.rows && !IsFull(w) && RowDue(w', s, st'.rows[s]) ensures AnyEvent(st', s) {
      if s !in st.rows {
        assert MatchDue(w, w.todo[0].connection, st'.rows[s].config);
      }
    }
  }

  lemma AddedMatched(st: Store, w: Worker, st': Store, w': Worker)
    requires NoOrphans(st, w) && Matched(st, w) && RowsAdded(st, w, st', w')
    ensures NoOrphans(st', w') && Matched(st', w')
  {
    hide Pending, HasArg, HasKey;
    assert Listed(w.todo, w.todo[0].connection);
    forall c, args | Matches(st, c, args) && c != w.todo[0].connection ensures Matches(st', c, args) {
      forall k | HasArg(args, k) ensures HasKey(st'.rows, c, k) {
        HasKeyGrows(st.rows, st'.rows, c, k);
      }
    }
  }

  lemma AddedFresh(st: Store, w: Worker, st': Store, w': Worker)
    requires Fresh(st, w) && RowsAdded(st, w, st', w')
    ensures Fresh(st', w')
  {
    hide Pending, HasArg, HasKey;
    forall t | t in w.todo ensures TaskFresh(st', w', t) {
      assert TaskFresh(st, w, t);
    }
    assert w.part.Two? ==> forall g :: g in w.part.rest ==> ConfigFresh(st, w, g, w.part.configs[g]) && ConfigFresh(st', w', g, w.part.configs[g]);
  }

  // ---- Recording a change for every sync of the connection

  ghost predicate ChangesAdded(st: Store, w: Worker, st': Store, w': Worker) {
    && w.Reconciling? && w.todo != [] && w.stage == Change
    && w' == Reconciling(w.full, w.ids, w.part, w.todo, Delete)
    && st.next <= st'.next && st' == st.(syncChanges := st'.syncChanges, next := st'.next)
    && HeadChanged(st', w.todo[0])
    && (forall s, captured :: Pending(st.syncChanges, captured, s) ==> Pending(st'.syncChanges, captured, s))
  }

  lemma ChangeAddsChanges(st: Store, w: Worker, st': Store, w': Worker)
    requires Ids(st) && WriteSyncs(st, w, st', w') && w.stage == Change
    ensures ChangesAdded(st, w, st', w') && Ids(st')
  {
    var c := w.todo[0].connection;
    forall s | s in st'.rows && st'.rows[s].connection == c ensures Pending(st'.syncChanges, {}, s) {
      assert AddedFor(RowsOf(st.rows, c), st.next, st.next + s);
      assert st.next + s in st'.syncChanges && st'.syncChanges[st.next + s] == s;
    }
    forall s, captured | Pending(st.syncChanges, captured, s) ensures Pending(st'.syncChanges, captured, s) {
      var e :| e in st.syncChanges && e !in captured && st.syncChanges[e] == s;
      assert e in st'.syncChanges;
    }
  }

  lemma ChangedCovered(st: Store, w: Worker, st': Store, w': Worker)
    requires Covered(st, w) && ChangesAdded(st, w, st', w')
    ensures Covered(st', w')
  {
    hide Pending;
    forall s | s in st'.rows ensures RowCovered(st', w', s) {
      assert RowCovered(st, w, s);
    }
  }

  lemma ChangedBacked(st: Store, w: Worker, st': Store, w': Worker)
    requires Backed(st, w) && ChangesAdded(st, w, st', w')
    ensures Backed(st', w')
  {
    hide Pending, HeadChanged;
    forall s | s in st'.rows && !IsFull(w) && RowDue(w', s, st'.rows[s]) ensures AnyEvent(st', s) {
      assert AnyEvent(st, s);
    }
  }

  lemma ChangedOthers(st: Store, w: Worker, st': Store, w': Worker)
    requires NoOrphans(st, w) && Matched(st, w) && ChangesAdded(st, w, st', w')
    ensures NoOrphans(st', w') && Matched(st', w')
  {
    hide Pending, HeadChanged, HasArg, HasKey;
    assert forall c, args :: Matches(st, c, args) ==> Matches(st', c, args);
  }

  lemma ChangedFresh(st: Store, w: Worker, st': Store, w': Worker)
    requires Fresh(st, w) && ChangesAdded(st, w, st', w')
    ensures Fresh(st', w')
  {
    hide Pending, HasArg, HasKey;
    assert HeadCreated(st, w, w.todo[0]);
    assert HeadCreated(st', w', w.todo[0]) by {
      assert forall g, c :: Serves(st', g, c) ==> Serves(st, g, c);
    }
    hide HeadChanged, HeadCreated;
    forall t | t in w.todo ensures TaskFresh(st', w', t) {
      assert TaskFresh(st, w, t);
    }
    assert w.part.Two? ==> forall g :: g in w.part.rest ==> ConfigFresh(st, w, g, w.part.configs[g]) && ConfigFresh(st', w', g, w.part.configs[g]);
  }

  // ---- Deleting the connection's unwanted syncs

  ghost predicate DeleteStep(st: Store, w: Worker, st': Store, w': Worker) {
    && w.Reconciling? && w.todo != [] && w.stage == Delete
    && st' == DeleteSyncs(st, w.todo[0]) && w' == Reconciling(w.full, w.ids, w.part, w.todo[1..], Create)
  }

  lemma ListedSplit(todo: seq<Task>, c: ConnectionId)
    requires todo != []
    ensures Listed(todo, c) <==> todo[0].connection == c || Listed(todo[1..], c)
  {
    assert todo == [todo[0]] + todo[1..];
  }

  lemma DeleteCovered(st: Store, w: Worker, st': Store, w': Worker)
    requires Covered(st, w) && DeleteStep(st, w, st', w')
    ensures Covered(st', w')
  {
    hide Pending, KeptBy;
    forall s | s in st'.rows ensures RowCovered(st', w', s) {
      assert RowCovered(st, w, s);
      if w.todo[1..] != [] { ListedSplit(w.todo[1..], st.rows[s].connection); }
    }
  }

  lemma DeleteBacked(st: Store, w: Worker, st': Store, w': Worker)
    requires DeleteStep(st, w, st', w') && Backed(st, w) && NoOrphans(st, w) && HeadChanged(st, w.todo[0])
    ensures Backed(st', w') && NoOrphans(st', w')
  {
    hide Pending, KeptBy;
    forall s | s in st'.rows && !IsFull(w) && RowDue(w', s, st'.rows[s]) ensures AnyEvent(st', s) {
      if w.todo[1..] != [] { ListedSplit(w.todo[1..], st.rows[s].connection); }
    }
    forall c, g | Serves(st', g, c) && MatchDue(w', c, g) ensures MatchDue(w, c, g) {
      ListedSplit(w.todo, c);
    }
  }

  lemma DeleteMatched(st: Store, w: Worker, st': Store, w': Worker)
    requires Fresh(st, w) && Matched(st, w) && DeleteStep(st, w, st', w')
    ensures Matched(st', w')
  {
    var t := w.todo[0];
    assert TaskFresh(st, w, t) && HeadCreated(st, w, t);
    hide Fresh;
    forall c, g | Serves(st', g, c) && !MatchDue(w', c, g) && !ConnectionPending(st, w, c) && !ConfigPending(st, w, g)
                  && !(st.full && !IsFull(w))
      ensures Matches(st', c, Desired(st.configs[g].data, st.connections[c].override))
    {
      var args := Desired(st.configs[g].data, st.connections[c].override);
      ListedSplit(w.todo, c);
      assert Serves(st, g, c);
      forall k | HasArg(args, k) ensures HasKey(st'.rows, c, k) {
        assert HasKey(st.rows, c, k);
        var s :| s in st.rows && st.rows[s].connection == c && st.rows[s].key == k;
        assert c == t.connection ==> KeptBy(t.args, k);
        assert s in st'.rows;
      }
    }
  }

  lemma DeleteTables(st: Store, w: Worker, st': Store, w': Worker)
    requires Tables(st) && Offsets(st) && DeleteStep(st, w, st', w')
    ensures Tables(st') && Offsets(st')
  {
    hide KeptBy;
  }

  lemma DeleteFresh(st: Store, w: Worker, st': Store, w': Worker)
    requires Fresh(st, w) && DeleteStep(st, w, st', w')
    ensures Fresh(st', w')
  {
    hide Pending, KeptBy, HeadCreated, HeadChanged;
    forall t | t in w'.todo ensures TaskFresh(st', w', t) {
      assert TaskFresh(st, w, t);
    }
  }

  // ---- Schedules

  /** What a write to Temporal changes: at most the schedule of x, and what the
      worker owes for x. */
  ghost predicate ScheduleWritten(st: Store, w: Worker, st': Store, w': Worker, x: Id) {
    SchedulesWritten(st, st', x) && OwedWritten(w, w', x)
  }

  ghost predicate SchedulesWritten(st: Store, st': Store, x: Id) {
    && st' == st.(schedules := st'.schedules)
    && (forall s :: s != x ==> (s in st'.schedules <==> s in st.schedules))
    && (forall s :: s != x && s in st.schedules ==> st'.schedules[s] == st.schedules[s])
  }

  ghost predicate OwedWritten(w: Worker, w': Worker, x: Id) {
    && IsFull(w') == IsFull(w)
    && CapturedConnectionChanges(w) == CapturedConnectionChanges(w') == {}
    && CapturedConfigChanges(w) == CapturedConfigChanges(w') == {}
    && CapturedSyncChanges(w') == CapturedSyncChanges(w)
    && !w'.ReadConnections?
    && (forall s, row :: RowDue(w', s, row) ==> RowDue(w, s, row))
    && (forall s, row :: s != x && RowDue(w, s, row) ==> RowDue(w', s, row))
    && (forall s :: DeletionDue(w', s) ==> DeletionDue(w, s))
    && (forall s :: s != x && DeletionDue(w, s) ==> DeletionDue(w', s))
    && (forall c, g :: !MatchDue(w, c, g) && !MatchDue(w', c, g))
    && (forall g :: !ConfigDue(w', g))
  }

  lemma WrittenCovered(st: Store, w: Worker, st': Store, w': Worker, x: Id)
    requires ScheduleWritten(st, w, st', w', x) && Covered(st, w)
    requires x in st'.rows ==> RowCovered(st', w', x)
    ensures Covered(st', w')
  {
    hide Pending, RowDue, DeletionDue, MatchDue, ConfigDue, IsFull, CapturedConnectionChanges, CapturedConfigChanges, CapturedSyncChanges;
    forall s | s in st'.rows && s != x ensures RowCovered(st', w', s) {
      WrittenRow(st, w, st', w', x, s);
    }
  }

  lemma WrittenRow(st: Store, w: Worker, st': Store, w': Worker, x: Id, s: Id)
    requires ScheduleWritten(st, w, st', w', x) && s in st.rows && s != x && RowCovered(st, w, s)
    ensures s in st'.rows && RowCovered(st', w', s)
  {
    hide Pending, RowDue, DeletionDue, MatchDue, ConfigDue, IsFull, CapturedConnectionChanges, CapturedConfigChanges, CapturedSyncChanges;
  }

  lemma WrittenNoOrphans(st: Store, w: Worker, st': Store, w': Worker, x: Id)
    requires ScheduleWritten(st, w, st', w', x) && NoOrphans(st, w)
    requires x in st'.schedules && x !in st'.rows ==> SyncPending(st', w', x) || DeletionDue(w', x)
    ensures NoOrphans(st', w')
  {
    hide Pending, RowDue, DeletionDue, MatchDue, ConfigDue, IsFull, CapturedConnectionChanges, CapturedConfigChanges, CapturedSyncChanges;
  }

  lemma WrittenMatched(st: Store, w: Worker, st': Store, w': Worker, x: Id)
    requires ScheduleWritten(st, w, st', w', x) && Matched(st, w)
    ensures Matched(st', w')
  {
    hide Pending, RowDue, DeletionDue, MatchDue, ConfigDue, IsFull, CapturedConnectionChanges, CapturedConfigChanges, CapturedSyncChanges, HasArg, HasKey, KeptBy;
    forall c, g | Serves(st', g, c)
      ensures Serves(st, g, c)
      ensures var args := Desired(st.configs[g].data, st.connections[c].override); Matches(st, c, args) ==> Matches(st', c, args)
    {
    }
  }

  lemma WrittenBacked(st: Store, w: Worker, st': Store, w': Worker, x: Id)
    requires ScheduleWritten(st, w, st', w', x) && Backed(st, w)
    requires x in st'.schedules && DeletionDue(w', x) ==> Pending(st.syncChanges, {}, x)
    ensures Backed(st', w')
  {
    hide Pending, RowDue, DeletionDue, MatchDue, ConfigDue, IsFull, CapturedConnectionChanges, CapturedConfigChanges, CapturedSyncChanges;
    forall s | s in st'.rows && !IsFull(w) && RowDue(w', s, st'.rows[s]) ensures AnyEvent(st', s) {
      assert AnyEvent(st, s);
    }
  }

  lemma WrittenPlan(st: Store, w: Worker, st': Store, w': Worker, x: Id, ids: set<Id>, plan: Plan)
    requires ScheduleWritten(st, w, st', w', x) && PlanFresh(st, w, ids, plan)
    requires x in plan.rows && x in st'.schedules ==> st'.schedules[x].connection == plan.rows[x].connection
    ensures PlanFresh(st', w', ids, plan)
  {
    assert st' == st.(schedules := st'.schedules) && CapturedConfigChanges(w) == CapturedConfigChanges(w');
    assert forall s :: s != x && s in st'.schedules ==> s in st.schedules && st'.schedules[s] == st.schedules[s];
    hide ScheduleWritten, ConfigFresh, RowFresh, CapturedConfigChanges;
    forall g | g in plan.configs ensures ConfigFresh(st', w', g, plan.configs[g]) {
      WrittenConfig(st, w, st', w', g, plan.configs[g]);
    }
    forall s | s in plan.rows ensures RowFresh(st', ids, s, plan.rows[s]) {
      WrittenPlanRow(st, st', x, ids, s, plan.rows[s]);
    }
  }

  lemma WrittenConfig(st: Store, w: Worker, st': Store, w': Worker, g: Id, config: SyncConfig)
    requires st' == st.(schedules := st'.schedules) && CapturedConfigChanges(w) == CapturedConfigChanges(w')
    requires ConfigFresh(st, w, g, config)
    ensures ConfigFresh(st', w', g, config)
  {
    assert forall h :: ConfigPending(st, w, h) <==> ConfigPending(st', w', h);
    hide ConfigPending;
  }

  lemma WrittenPlanRow(st: Store, st': Store, x: Id, ids: set<Id>, s: Id, row: SyncRow)
    requires st' == st.(schedules := st'.schedules)
    requires s != x && s in st'.schedules ==> s in st.schedules && st'.schedules[s] == st.schedules[s]
    requires s == x && s in st'.schedules ==> st'.schedules[s].connection == row.connection
    requires RowFresh(st, ids, s, row)
    ensures RowFresh(st', ids, s, row)
  {
  }

  /** Pausing or deleting a schedule changes neither its period nor its offset. */
  ghost predicate ScheduleKept(st: Store, st': Store, x: Id) {
    x in st'.schedules ==>
      && x in st.schedules
      && st'.schedules[x].connection == st.schedules[x].connection
      && st'.schedules[x].every == st.schedules[x].every
      && st'.schedules[x].offset == st.schedules[x].offset
  }

  lemma PauseOrDeleteOwes(st: Store, w: Worker, st': Store, w': Worker)
    requires WriteSchedules(st, w, st', w') && (w.Pausing? || w.Deleting?)
    ensures OwedWritten(w, w', w.left[0])
  {
    hide PauseSchedule, DeleteSchedule;
    assert w.left == [w.left[0]] + w.left[1..];
  }

  lemma PauseOrDeleteWrites(st: Store, st': Store, x: Id)
    requires st' == PauseSchedule(st, x) || st' == DeleteSchedule(st, x)
    ensures SchedulesWritten(st, st', x) && ScheduleKept(st, st', x)
  {
  }

  lemma PauseOrDeleteFacts(st: Store, w: Worker, st': Store, w': Worker)
    requires WriteSchedules(st, w, st', w') && (w.Pausing? || w.Deleting?)
    requires Fresh(st, w)
    ensures Gone(st, w.left[0]) && PlanFresh(st, w, w.ids, w.plan)
    ensures w.left[0] !in w.plan.rows || w.left[0] !in st.schedules || st.schedules[w.left[0]].connection == w.plan.rows[w.left[0]].connection
    ensures PlanFresh(st', w', w.ids, w.plan) ==> Fresh(st', w')
  {
    hide Pending, ConfigFresh;
    assert w.left == [w.left[0]] + w.left[1..];
    assert forall s :: Gone(st, s) ==> Gone(st', s);
    if PlanFresh(st', w', w.ids, w.plan) {
      assert CapturedOld(st', w');
    }
  }

  lemma PauseOrDeleteTables(st: Store, st': Store, x: Id)
    requires Tables(st) && Offsets(st) && SchedulesWritten(st, st', x) && ScheduleKept(st, st', x)
    ensures Tables(st') && Offsets(st')
  {
    hide Tables, StringToNumber;
    ScheduleTables(st, st');
  }

  lemma ScheduleTables(st: Store, st': Store)
    requires Tables(st) && st' == st.(schedules := st'.schedules)
    requires forall s :: s in st'.schedules ==> s in st.schedules || s < st.next
    ensures Tables(st')
  {
    hide UniqueKeys;
  }

  lemma PauseOrDelete(st: Store, w: Worker, st': Store, w': Worker)
    requires WriteSchedules(st, w, st', w') && (w.Pausing? || w.Deleting?)
    requires Inv(st, w)
    ensures Inv(st', w')
  {
    hide Tables, Offsets, Fresh, Backed, Covered, NoOrphans, Matched, PlanFresh, RowCovered, Pending;
    var x := w.left[0];
    PauseOrDeleteFacts(st, w, st', w');
    PauseOrDeleteWrites(st, st', x);
    PauseOrDeleteTables(st, st', x);
    PauseOrDeleteOwes(st, w, st', w');
    PauseOrDeleteOwed(st, w, st', w');
    WrittenPlan(st, w, st', w', x, w.ids, w.plan);
    hide WriteSchedules, ScheduleWritten;
    WrittenCovered(st, w, st', w', x);
    WrittenNoOrphans(st, w, st', w', x);
    WrittenMatched(st, w, st', w', x);
    WrittenBacked(st, w, st', w', x);
  }

  lemma PauseOrDeleteOwed(st: Store, w: Worker, st': Store, w': Worker)
    requires WriteSchedules(st, w, st', w') && (w.Pausing? || w.Deleting?)
    requires Gone(st, w.left[0]) && Backed(st, w) && NoOrphans(st, w)
    ensures w.left[0] in st'.schedules ==> SyncPending(st', w', w.left[0]) || DeletionDue(w', w.left[0])
    ensures w.left[0] in st'.schedules && DeletionDue(w', w.left[0]) ==> Pending(st.syncChanges, {}, w.left[0])
  {
    hide Pending;
  }

  // ---- Storing the strategy of a row, then its schedule

  /** Storing the strategy changes no column the protocol depends on. */
  lemma StrategyAnnounced(st: Store, s: Id, strategy: Strategy, full: bool)
    requires Tables(st) && s in st.rows
    ensures Tables(StoreStrategy(st, s, strategy)) && Announced(st, StoreStrategy(st, s, strategy), full)
  {
    hide New, ConnectionsAnnounced, ConfigsAnnounced, SchedulesKept, Tables;
    var st' := StoreStrategy(st, s, strategy);
    RowReplaced(st, st', s);
    Untouched(st, st', full);
  }

  lemma Relabel(st: Store, w: Worker, w': Worker)
    requires Inv(st, w) && w.Upserting? && w.left != [] && w' == Scheduling(w.full, w.ids, w.plan, w.left)
    ensures Stored(st, w') ==> Inv(st, w')
  {
    hide UniqueKeys, Matches, Pending, RowFresh, Agrees, Offsets, Tables, Stored;
    assert PlanFresh(st, w', w.ids, w.plan) by {
      forall g | g in w.plan.configs ensures ConfigFresh(st, w', g, w.plan.configs[g]) {
        assert ConfigFresh(st, w, g, w.plan.configs[g]);
      }
    }
    hide PlanFresh, ConfigFresh;
    assert Covered(st, w') by {
      forall s | s in st.rows ensures RowCovered(st, w', s) {
        assert RowCovered(st, w, s);
      }
    }
  }

  lemma StoreStrategyStep(st: Store, w: Worker, st': Store, w': Worker)
    requires Inv(st, w) && w.Upserting? && WriteSchedules(st, w, st', w')
    ensures Inv(st', w')
  {
    hide Tables, Offsets, Fresh, Backed, Covered, NoOrphans, Matched, Announced, StrategyOf;
    var row := w.plan.rows[w.left[0]];
    assert forall other :: RowDue(w, w.left[0], other);
    StrategyAnnounced(st, w.left[0], StrategyOf(w.plan.configs[row.config].data, row.key), IsFull(w));
    AnnouncedKeepsRest(st, st', w);
    Relabel(st', w, w');
  }

  lemma ScheduleWrites(st: Store, w: Worker, st': Store, w': Worker)
    requires w.Scheduling? && WriteSchedules(st, w, st', w')
    ensures SchedulesWritten(st, st', w.left[0])
  {
    hide PeriodOf, StringToNumber;
  }

  lemma ScheduleOwes(st: Store, w: Worker, st': Store, w': Worker)
    requires w.Scheduling? && WriteSchedules(st, w, st', w')
    ensures OwedWritten(w, w', w.left[0]) && !DeletionDue(w', w.left[0])
  {
    hide UpsertSchedule;
    assert w.left == [w.left[0]] + w.left[1..];
  }

  /** The schedule now agrees with the row, or a later event is pending. */
  lemma ScheduledRow(st: Store, w: Worker, st': Store, w': Worker)
    requires Fresh(st, w) && Stored(st, w) && w.Scheduling? && WriteSchedules(st, w, st', w')
    requires forall s :: s in st.rows ==> st.rows[s].config in st.configs
    ensures var x := w.left[0];
            && (x in st'.rows ==> RowCovered(st', w', x))
            && (x !in st'.rows ==> SyncPending(st', w', x))
            && st'.schedules[x].connection == w.plan.rows[x].connection
    ensures var x, row := w.left[0], w.plan.rows[w.left[0]];
            && x < st.next
            && (x in st.schedules ==> st.schedules[x].connection == row.connection)
            && (x in st.rows ==> st.rows[x].connection == row.connection)
  {
    var x := w.left[0];
    var row := w.plan.rows[x];
    assert RowFresh(st, w.ids, x, row) && ConfigFresh(st, w, row.config, w.plan.configs[row.config]);
    hide Fresh, PlanFresh, Pending, PeriodOf, StrategyOf, StringToNumber, RowDue;
  }

  lemma ScheduledTables(st: Store, st': Store, x: Id, row: SyncRow, every: Period)
    requires Tables(st) && Offsets(st) && st' == st.(schedules := UpsertSchedule(st.schedules, x, row, every))
    requires x < st.next
    requires x in st.schedules ==> st.schedules[x].connection == row.connection
    requires x in st.rows ==> st.rows[x].connection == row.connection
    ensures Tables(st') && Offsets(st')
  {
    hide Tables, StringToNumber;
    ScheduleTables(st, st');
  }

  lemma ScheduledFresh(st: Store, w: Worker, st': Store, w': Worker)
    requires Fresh(st, w) && w.Scheduling? && WriteSchedules(st, w, st', w')
    ensures PlanFresh(st, w, w.ids, w.plan)
    ensures PlanFresh(st', w', w.ids, w.plan) ==> Fresh(st', w')
  {
    hide ConfigFresh, RowFresh, PeriodOf, StringToNumber;
    assert w.left == [w.left[0]] + w.left[1..];
  }

  lemma ScheduleStep(st: Store, w: Worker, st': Store, w': Worker)
    requires Inv(st, w) && w.Scheduling? && WriteSchedules(st, w, st', w')
    ensures Inv(st', w')
  {
    assert forall s :: s in st.rows ==> Serves(st, st.rows[s].config, st.rows[s].connection);
    hide Tables, Offsets, Fresh, Backed, Covered, NoOrphans, Matched, PlanFresh, RowCovered, UpsertSchedule, PeriodOf;
    hide SyncPending, DeletionDue, SchedulesWritten, OwedWritten;
    var x := w.left[0];
    ScheduledRow(st, w, st', w');
    var row := w.plan.rows[x];
    ScheduledTables(st, st', x, row, PeriodOf(w.plan.configs[row.config].data, row.key));
    ScheduledFresh(st, w, st', w');
    ScheduleWrites(st, w, st', w');
    ScheduleOwes(st, w, st', w');
    assert ScheduleWritten(st, w, st', w', x);
    hide ScheduleWritten, WriteSchedules;
    WrittenPlan(st, w, st', w', x, w.ids, w.plan);
    WrittenCovered(st, w, st', w', x);
    WrittenNoOrphans(st, w, st', w', x);
    WrittenMatched(st, w, st', w', x);
    WrittenBacked(st, w, st', w', x);
  }

  // ---- Deleting the captured events at the end of a part

  /** At the end of a part every uncaptured event stays, and nothing is owed. */
  ghost predicate PartFinished(st: Store, w: Worker, st': Store, w': Worker) {
    && st' == st.(connectionChanges := st'.connectionChanges, configChanges := st'.configChanges, syncChanges := st'.syncChanges, full := st'.full)
    && (forall c :: ConnectionPending(st, w, c) ==> ConnectionPending(st', w', c))
    && (forall g :: ConfigPending(st, w, g) ==> ConfigPending(st', w', g))
    && (forall s :: SyncPending(st, w, s) ==> SyncPending(st', w', s))
    && (st.full && !IsFull(w) ==> st'.full && !IsFull(w'))
    && (IsFull(w') ==> st'.full)
    && EventsKept(st'.connectionChanges, st.connectionChanges) && EventsKept(st'.configChanges, st.configChanges)
    && EventsKept(st'.syncChanges, st.syncChanges)
    && (w'.Idle? || w'.BeginTwo? || w'.BeginThree? || w'.ClearFlag?)
    && NothingOwed(w) && NothingOwed(w') && (forall s, row :: RowDue(w, s, row) ==> RowDue(w', s, row))
  }

  /** Only a full pass still has something to do at the end of a part. */
  ghost predicate NothingOwed(w: Worker) {
    && (forall s, row :: RowDue(w, s, row) ==> IsFull(w))
    && (forall s :: !DeletionDue(w, s))
    && (forall c, g :: !MatchDue(w, c, g))
  }

  lemma FinishOwesNothing(st: Store, w: Worker, st': Store, w': Worker)
    requires FinishPart(st, w, st', w')
    ensures NothingOwed(w) && NothingOwed(w') && forall s, row :: RowDue(w, s, row) ==> RowDue(w', s, row)
  {
  }

  lemma FinishedEvents<T>(changes: map<Id, T>, ids: set<Id>)
    ensures forall t :: Pending(changes, ids, t) ==> Pending(changes - ids, {}, t)
    ensures EventsKept(changes - ids, changes)
  {
    forall t | Pending(changes, ids, t) ensures Pending(changes - ids, {}, t) {
      var e :| e in changes && e !in ids && changes[e] == t;
      assert e in changes - ids;
    }
  }

  lemma FinishKeepsEvents(st: Store, w: Worker, st': Store, w': Worker)
    requires FinishPart(st, w, st', w')
    ensures forall c :: ConnectionPending(st, w, c) ==> ConnectionPending(st', w', c)
    ensures forall g :: ConfigPending(st, w, g) ==> ConfigPending(st', w', g)
    ensures forall s :: SyncPending(st, w, s) ==> SyncPending(st', w', s)
    ensures EventsKept(st'.connectionChanges, st.connectionChanges) && EventsKept(st'.configChanges, st.configChanges)
    ensures EventsKept(st'.syncChanges, st.syncChanges)
  {
    match w {
      case Reconciling(_, ids, One, _, _) => FinishedEvents(st.connectionChanges, ids); hide Pending;
      case Reconciling(_, ids, Two(_, _), _, _) => FinishedEvents(st.configChanges, ids); hide Pending;
      case Upserting(_, ids, _, _) => FinishedEvents(st.syncChanges, ids); hide Pending;
      case _ => hide Pending;
    }
  }

  lemma FinishPartFinishes(st: Store, w: Worker, st': Store, w': Worker)
    requires FinishPart(st, w, st', w') && (IsFull(w) ==> st.full)
    ensures PartFinished(st, w, st', w')
  {
    FinishOwesNothing(st, w, st', w');
    FinishKeepsEvents(st, w, st', w');
    hide NothingOwed, RowDue, EventsKept, ConnectionPending, ConfigPending, SyncPending;
  }

  lemma FinishedTables(st: Store, w: Worker, st': Store, w': Worker)
    requires PartFinished(st, w, st', w') && Tables(st) && Offsets(st)
    ensures Tables(st') && Offsets(st')
  {
    hide Pending, UniqueKeys, NothingOwed, IsFull, ConnectionPending, ConfigPending, SyncPending, StringToNumber;
  }

  lemma FinishedReads(st: Store, w: Worker, st': Store, w': Worker)
    requires PartFinished(st, w, st', w')
    ensures Fresh(st', w') && Backed(st', w')
  {
    hide Pending, RowDue, DeletionDue, MatchDue, IsFull, ConnectionPending, ConfigPending, SyncPending;
  }

  lemma FinishedCovered(st: Store, w: Worker, st': Store, w': Worker)
    requires PartFinished(st, w, st', w') && Covered(st, w) && NoOrphans(st, w) && Matched(st, w)
    ensures Covered(st', w') && NoOrphans(st', w') && Matched(st', w')
  {
    hide Pending, RowDue, DeletionDue, MatchDue, IsFull, ConnectionPending, ConfigPending, SyncPending, EventsKept, HasArg, HasKey, KeptBy;
    forall s | s in st'.rows ensures RowCovered(st', w', s) {
      assert RowCovered(st, w, s);
    }
    forall c, args | Matches(st, c, args) ensures Matches(st', c, args) {
    }
    forall c, g | Serves(st', g, c) ensures Serves(st, g, c) {
    }
  }

  lemma FinishStep(st: Store, w: Worker, st': Store, w': Worker)
    requires FinishPart(st, w, st', w') && Inv(st, w)
    ensures Inv(st', w')
  {
    assert IsFull(w) ==> st.full;
    hide Tables, Offsets, Fresh, Backed, Covered, NoOrphans, Matched, PartFinished, FinishPart, IsFull;
    FinishPartFinishes(st, w, st', w');
    FinishedTables(st, w, st', w');
    FinishedReads(st, w, st', w');
    FinishedCovered(st, w, st', w');
  }

  // ---- Every step

  lemma CreateStepKeepsInv(st: Store, w: Worker, st': Store, w': Worker)
    requires Inv(st, w) && WriteSyncs(st, w, st', w') && w.stage == Create
    ensures Inv(st', w')
  {
    assert Ids(st);
    hide Tables, Offsets, Fresh, Backed, Covered, NoOrphans, Matched, RowsAdded, WriteSyncs, UniqueKeys, Ids;
    CreateAddsRows(st, w, st', w');
    AddedTables(st, w, st', w');
    AddedCovered(st, w, st', w');
    AddedBacked(st, w, st', w');
    AddedMatched(st, w, st', w');
    AddedFresh(st, w, st', w');
  }

  lemma ChangeStepTables(st: Store, w: Worker, st': Store, w': Worker)
    requires Tables(st) && Offsets(st) && WriteSyncs(st, w, st', w') && w.stage == Change
    ensures Tables(st') && Offsets(st')
  {
    AddSyncChangesTables(st, w.todo[0].connection);
    hide Tables, StringToNumber;
  }

  lemma ChangeStepKeepsInv(st: Store, w: Worker, st': Store, w': Worker)
    requires Inv(st, w) && WriteSyncs(st, w, st', w') && w.stage == Change
    ensures Inv(st', w')
  {
    assert Ids(st);
    hide Tables, Offsets, Fresh, Backed, Covered, NoOrphans, Matched, ChangesAdded, WriteSyncs, UniqueKeys, Ids;
    ChangeStepTables(st, w, st', w');
    ChangeAddsChanges(st, w, st', w');
    ChangedCovered(st, w, st', w');
    ChangedBacked(st, w, st', w');
    ChangedOthers(st, w, st', w');
    ChangedFresh(st, w, st', w');
  }

  lemma DeleteStepKeepsInv(st: Store, w: Worker, st': Store, w': Worker)
    requires Inv(st, w) && DeleteStep(st, w, st', w')
    ensures Inv(st', w')
  {
    assert HeadChanged(st, w.todo[0]);
    hide Tables, Offsets, Fresh, Backed, Covered, NoOrphans, Matched, HeadChanged, DeleteStep;
    DeleteTables(st, w, st', w');
    DeleteFresh(st, w, st', w');
    DeleteCovered(st, w, st', w');
    DeleteBacked(st, w, st', w');
    DeleteMatched(st, w, st', w');
  }

  lemma WriteSyncsStep(st: Store, w: Worker, st': Store, w': Worker)
    requires Inv(st, w) && WriteSyncs(st, w, st', w')
    ensures Inv(st', w')
  {
    hide Tables, Offsets, Fresh, Backed, Covered, NoOrphans, Matched, UniqueKeys, Ids;
    match w.stage {
      case Create => CreateStepKeepsInv(st, w, st', w');
      case Change => ChangeStepKeepsInv(st, w, st', w');
      case Delete => DeleteStepKeepsInv(st, w, st', w');
    }
  }

  lemma QueryIsNoWrite(st: Store, w: Worker, w': Worker)
    requires QueryOne(st, w, w') || QueryTwo(st, w, w') || QueryThree(st, w, w')
    ensures Stored(st, w')
  {
    hide TasksOfConnections, TasksOfConfig;
  }

  lemma QueryStep(st: Store, w: Worker, w': Worker)
    requires Inv(st, w) && (QueryOne(st, w, w') || QueryTwo(st, w, w') || QueryThree(st, w, w'))
    ensures Inv(st, w')
  {
    QueryIsNoWrite(st, w, w');
    hide Stored;
    hide Tables, Offsets, Fresh, Backed, Covered, NoOrphans, Matched, QueryOne, QueryTwo, QueryThree;
    if QueryOne(st, w, w') {
      QueryOneCovered(st, w, w');
      QueryOneOthers(st, w, w');
      QueryOneFresh(st, w, w');
      QueryOneBacked(st, w, w');
    } else if QueryTwo(st, w, w') {
      QueryTwoCovered(st, w, w');
      QueryTwoOthers(st, w, w');
      QueryTwoFresh(st, w, w');
      QueryTwoBacked(st, w, w');
    } else {
      QueryThreeCovered(st, w, w');
      QueryThreeOthers(st, w, w');
      QueryThreeFresh(st, w, w');
      QueryThreeBacked(st, w, w');
    }
  }

  /** The invariant survives every query and every write of the worker. */
  lemma WorkerKeepsInv(st: Store, w: Worker, st': Store, w': Worker)
    requires Inv(st, w) && WorkerStep(st, w, st', w')
    ensures Inv(st', w')
  {
    assert Ids(st);
    hide Ids, Tables, Offsets, Fresh, Backed, Covered, NoOrphans, Matched, QueryOne, QueryTwo, QueryThree, WriteSyncs, FinishPart;
    if WriteSyncs(st, w, st', w') {
      WriteSyncsStep(st, w, st', w');
    } else if WriteSchedules(st, w, st', w') {
      if w.Pausing? || w.Deleting? {
        PauseOrDelete(st, w, st', w');
      } else if w.Upserting? {
        StoreStrategyStep(st, w, st', w');
      } else {
        ScheduleStep(st, w, st', w');
      }
    } else if FinishPart(st, w, st', w') {
      FinishStep(st, w, st', w');
    } else {
      QueryStep(st, w, w');
    }
  }
}
