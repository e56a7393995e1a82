/** Three kinds of writes record no event: changes of a schedule made by hand, backed
    only by the request of a full pass, deletions that cascade in the database, and the
    upsert of a connection, which creates one without its syncs.
    Exactly when the outbox invariant survives them, wherever the worker is. */
module OutboxSafeWrites {
  import opened StringHash
  import opened SyncTypes
  import opened Reconcile
  import opened Outbox
  import opened OutboxInvariant
  import opened OutboxWriters
  import opened OutboxWorker

  // ---- Changes by hand

  /** A schedule can be changed by hand when its row stays covered. */
  lemma CoveredRowCanBeChanged(st: Store, st': Store, w: Worker, s: Id)
    requires SchedulesWritten(st, st', s) && ScheduleKept(st, st', s)
    requires Inv(st, w) && s in st.rows && RowCovered(st', w, s)
    ensures Inv(st', w)
  {
    assert st'.rows == st.rows;
    hide RowCovered, SchedulesWritten, ScheduleKept, Tables, Offsets, Fresh, Covered, NoOrphans, Matched, Backed;
    PauseOrDeleteTables(st, st', s);
    ByHandFresh(st, st', w, s);
    ByHandCovered(st, st', w, s);
    ByHandMatched(st, st', w, s);
    ByHandBacked(st, st', w, s);
  }

  lemma ByHandCovered(st: Store, st': Store, w: Worker, s: Id)
    requires SchedulesWritten(st, st', s) && s in st.rows && RowCovered(st', w, s) && Covered(st, w) && NoOrphans(st, w)
    ensures Covered(st', w) && NoOrphans(st', w)
  {
    hide RowDue, DeletionDue, Pending;
    forall t | t in st'.rows ensures RowCovered(st', w, t) {
      assert RowCovered(st, w, t);
    }
  }

  lemma ByHandMatched(st: Store, st': Store, w: Worker, s: Id)
    requires SchedulesWritten(st, st', s) && Matched(st, w)
    ensures Matched(st', w)
  {
    hide Pending, MatchDue, HasArg, HasKey, KeptBy;
    assert forall c, args :: Matches(st, c, args) ==> Matches(st', c, args);
    hide Matches;
    forall c, g | Serves(st', g, c) ensures Serves(st, g, c) {
    }
  }

  lemma ByHandBacked(st: Store, st': Store, w: Worker, s: Id)
    requires SchedulesWritten(st, st', s) && ScheduleKept(st, st', s) && Backed(st, w)
    ensures Backed(st', w)
  {
    hide Pending, RowDue, MatchDue, DeletionDue, ConfigDue;
    forall t | t in st'.rows && !IsFull(w) && RowDue(w, t, st'.rows[t]) ensures AnyEvent(st', t) {
      assert AnyEvent(st, t);
    }
  }

  lemma ByHandRow(st: Store, st': Store, s: Id, ids: set<Id>, t: Id, row: SyncRow)
    requires SchedulesWritten(st, st', s) && ScheduleKept(st, st', s) && RowFresh(st, ids, t, row)
    ensures RowFresh(st', ids, t, row)
  {
  }

  lemma ByHandTask(st: Store, st': Store, w: Worker, t: Task)
    requires st' == st.(schedules := st'.schedules)
    ensures TaskFresh(st, w, t) ==> TaskFresh(st', w, t)
    ensures HeadCreated(st, w, t) ==> HeadCreated(st', w, t)
  {
    hide Pending, HasArg, HasKey, Desired;
    assert forall g :: Serves(st', g, t.connection) ==> Serves(st, g, t.connection);
  }

  lemma ByHandConfig(st: Store, st': Store, w: Worker, g: Id, config: SyncConfig)
    requires st' == st.(schedules := st'.schedules) && ConfigFresh(st, w, g, config)
    ensures ConfigFresh(st', w, g, config)
  {
    hide Pending;
  }

  lemma ByHandFresh(st: Store, st': Store, w: Worker, s: Id)
    requires SchedulesWritten(st, st', s) && ScheduleKept(st, st', s) && Fresh(st, w)
    ensures Fresh(st', w)
  {
    assert st' == st.(schedules := st'.schedules);
    hide Pending, RowFresh, ConfigFresh, TaskFresh, HeadCreated, SchedulesWritten, ScheduleKept;
    forall ids, t, row | RowFresh(st, ids, t, row) ensures RowFresh(st', ids, t, row) {
      ByHandRow(st, st', s, ids, t, row);
    }
    forall g, config | ConfigFresh(st, w, g, config) ensures ConfigFresh(st', w, g, config) {
      ByHandConfig(st, st', w, g, config);
    }
    forall t ensures (TaskFresh(st, w, t) ==> TaskFresh(st', w, t)) && (HeadCreated(st, w, t) ==> HeadCreated(st', w, t)) {
      ByHandTask(st, st', w, t);
    }
  }

  lemma ByHandWrites(st: Store, s: Id, byHand: Option<bool>)
    requires Ids(st) && s in st.rows
    ensures var st' := Apply(st, Tamper(s, byHand));
            && Enabled(st, Tamper(s, byHand))
            && st'.full && st'.rows == st.rows && st'.configs == st.configs
            && (st.full ==> SchedulesWritten(st, st', s)) && ScheduleKept(st, st', s)
  {
    hide UniqueKeys;
  }

  /** A change by hand is safe outside full passes; during one, when the pass will
      still upsert the schedule, when an event not yet captured makes a later pass do
      so, or when the change leaves the schedule as the row wants it. */
  ghost predicate SafeByHand(st: Store, w: Worker, s: Id, byHand: Option<bool>)
    requires Ids(st) && s in st.rows
  {
    || !IsFull(w)
    || RowDue(w, s, st.rows[s])
    || SyncPending(st, w, s) || ConfigPending(st, w, st.rows[s].config) || ConnectionPending(st, w, st.rows[s].connection)
    || Agrees(Apply(st, Tamper(s, byHand)), s)
  }

  lemma SafeByHandCovers(st: Store, w: Worker, s: Id, byHand: Option<bool>)
    requires Ids(st) && s in st.rows && IsFull(w)
    ensures var st' := Apply(st, Tamper(s, byHand));
            st'.rows == st.rows && (RowCovered(st', w, s) <==> SafeByHand(st, w, s, byHand))
  {
    hide Ids, Agrees, Pending, RowDue;
  }

  lemma TamperKeepsInv(st: Store, st': Store, w: Worker, s: Id, byHand: Option<bool>)
    requires Ids(st) && s in st.rows && st' == Apply(st, Tamper(s, byHand)) && Inv(st, w)
    ensures Inv(st', w) <==> SafeByHand(st, w, s, byHand)
  {
    assert (IsFull(w) ==> st.full) && (Inv(st', w) ==> Covered(st', w));
    hide Inv, Apply, Ids, Agrees, RowDue, SyncPending, ConfigPending, ConnectionPending, RowCovered;
    ByHandWrites(st, s, byHand);
    if !IsFull(w) {
      WriteKeepsInv(st, w, Tamper(s, byHand));
    } else {
      SafeByHandCovers(st, w, s, byHand);
      if SafeByHand(st, w, s, byHand) {
        CoveredRowCanBeChanged(st, st', w, s);
      }
    }
  }

  /** A caller who finds the flag off may change any schedule. */
  lemma FlagOffIsSafe(st: Store, w: Worker, s: Id, byHand: Option<bool>)
    requires Ids(st) && s in st.rows && Inv(st, w) && !st.full
    ensures SafeByHand(st, w, s, byHand)
  {
    hide Tables, Offsets, Fresh, Covered, NoOrphans, Matched, RowDue, Apply;
  }

  // ---- Cascading deletions

  /** What a cascading deletion does. */
  ghost predicate Cascaded(st: Store, st': Store, gone: set<ConnectionId>, goneConfigs: set<Id>, entities: set<string>) {
    && st' == st.(connections := st.connections - gone, configs := st.configs - goneConfigs, rows := st'.rows)
    && (forall s :: s in st'.rows <==> s in st.rows && !Cascades(st.rows[s], gone, goneConfigs, entities))
    && (forall s :: s in st'.rows ==> st'.rows[s] == st.rows[s])
  }

  /** The worker has read the row and will upsert its schedule. */
  predicate InPlan(w: Worker, s: Id) {
    match w
    case ReadRowConnections(_, _, _, rows) => s in rows
    case ReadRowConfigs(_, _, _, rows, _) => s in rows
    case Pausing(_, _, plan, _, _) => s in plan.rows
    case Deleting(_, _, plan, _) => s in plan.rows
    case Upserting(_, _, plan, _) => s in plan.rows
    case Scheduling(_, _, plan, _) => s in plan.rows
    case _ => false
  }

  /** The connection and config of the row stay, and still ask for it. */
  predicate StillWanted(st: Store, row: SyncRow, gone: set<ConnectionId>, goneConfigs: set<Id>) {
    && row.connection in st.connections && row.connection !in gone && row.config in st.configs && row.config !in goneConfigs
    && HasArg(Desired(st.configs[row.config].data, st.connections[row.connection].override), row.key)
  }

  /** The worker has just made sure that the row is there. */
  predicate AtHead(w: Worker, row: SyncRow) {
    w.Reconciling? && w.todo != [] && w.stage != Create && w.todo[0].connection == row.connection && HasArg(w.todo[0].args, row.key)
  }

  /** An event not yet captured tells about the row that vanishes: for its schedule,
      there already or about to be upserted, one of the sync; and when the row is
      still wanted, one of its connection or config. */
  ghost predicate VanishesRecorded(st: Store, w: Worker, s: Id, gone: set<ConnectionId>, goneConfigs: set<Id>)
    requires s in st.rows
  {
    var row := st.rows[s];
    var parentPending := ConnectionPending(st, w, row.connection) || ConfigPending(st, w, row.config);
    && (s in st.schedules ==> SyncPending(st, w, s) || DeletionDue(w, s))
    && (InPlan(w, s) ==> SyncPending(st, w, s))
    && (StillWanted(st, row, gone, goneConfigs) ==>
          parentPending || MatchDue(w, row.connection, row.config) || (st.full && !IsFull(w)))
    && (AtHead(w, row) && row.connection !in gone && row.config !in goneConfigs ==> parentPending)
  }

  ghost predicate SafeCascade(st: Store, w: Worker, gone: set<ConnectionId>, goneConfigs: set<Id>, entities: set<string>) {
    forall s :: s in st.rows && Cascades(st.rows[s], gone, goneConfigs, entities) ==> VanishesRecorded(st, w, s, gone, goneConfigs)
  }

  lemma CascadeTables(st: Store, st': Store, gone: set<ConnectionId>, goneConfigs: set<Id>, entities: set<string>)
    requires Tables(st) && Offsets(st) && Cascaded(st, st', gone, goneConfigs, entities)
    ensures Tables(st') && Offsets(st')
  {
    hide StringToNumber;
  }

  lemma CascadeCovered(st: Store, st': Store, w: Worker, gone: set<ConnectionId>, goneConfigs: set<Id>, entities: set<string>)
    requires Cascaded(st, st', gone, goneConfigs, entities) && Covered(st, w)
    ensures Covered(st', w)
  {
    hide Pending, RowDue, PeriodOf;
    forall s | s in st'.rows ensures RowCovered(st', w, s) {
      assert RowCovered(st, w, s);
    }
  }

  lemma CascadeBacked(st: Store, st': Store, w: Worker, gone: set<ConnectionId>, goneConfigs: set<Id>, entities: set<string>)
    requires Cascaded(st, st', gone, goneConfigs, entities) && Backed(st, w)
    ensures Backed(st', w)
  {
    hide Pending, RowDue, MatchDue, DeletionDue, ConfigDue;
    forall s | s in st'.rows && !IsFull(w) && RowDue(w, s, st'.rows[s]) ensures AnyEvent(st', s) {
      assert AnyEvent(st, s);
    }
    forall c, g | Serves(st', g, c) ensures Serves(st, g, c) {
    }
  }

  lemma CascadeNoOrphans(st: Store, st': Store, w: Worker, gone: set<ConnectionId>, goneConfigs: set<Id>, entities: set<string>)
    requires Cascaded(st, st', gone, goneConfigs, entities) && NoOrphans(st, w) && SafeCascade(st, w, gone, goneConfigs, entities)
    ensures NoOrphans(st', w)
  {
    hide Pending, DeletionDue, Cascades, StillWanted, AtHead, InPlan;
    forall s | s in st'.schedules && s !in st'.rows ensures SyncPending(st', w, s) || DeletionDue(w, s) {
      if s in st.rows {
        assert VanishesRecorded(st, w, s, gone, goneConfigs);
      }
    }
  }

  /** A row of a connection that keeps its config was of that config. */
  lemma RowsConfig(st: Store, s: Id, c: ConnectionId, g: Id)
    requires Tables(st) && s in st.rows && st.rows[s].connection == c && Serves(st, g, c)
    ensures st.rows[s].config == g
  {
    hide Ids, UniqueKeys;
    assert Serves(st, st.rows[s].config, st.rows[s].connection);
  }

  lemma CascadeMissing(st: Store, st': Store, w: Worker, gone: set<ConnectionId>, goneConfigs: set<Id>, entities: set<string>,
                       c: ConnectionId, g: Id, k: SyncKey)
    requires Cascaded(st, st', gone, goneConfigs, entities) && Tables(st) && SafeCascade(st, w, gone, goneConfigs, entities)
    requires Serves(st', g, c) && HasArg(Desired(st.configs[g].data, st.connections[c].override), k)
    requires HasKey(st.rows, c, k) && !HasKey(st'.rows, c, k)
    ensures ConnectionPending(st, w, c) || ConfigPending(st, w, g) || MatchDue(w, c, g) || (st.full && !IsFull(w))
  {
    hide Pending, MatchDue, InPlan, AtHead, Tables, Cascades, Desired, HasArg, DeletionDue, IsFull;
    var s :| s in st.rows && st.rows[s].connection == c && st.rows[s].key == k;
    assert Serves(st, g, c);
    RowsConfig(st, s, c, g);
    assert s !in st'.rows;
    assert VanishesRecorded(st, w, s, gone, goneConfigs);
  }

  lemma CascadeKeepsKept(st: Store, st': Store, c: ConnectionId, args: seq<SyncArgs>)
    requires Matches(st, c, args) && forall s :: s in st'.rows ==> s in st.rows && st'.rows[s] == st.rows[s]
    ensures Matches(st', c, args) <==> forall k :: HasArg(args, k) ==> HasKey(st'.rows, c, k)
    ensures forall k :: HasArg(args, k) ==> HasKey(st.rows, c, k)
  {
    hide HasArg, HasKey, KeptBy;
  }

  lemma CascadeMatched(st: Store, st': Store, w: Worker, gone: set<ConnectionId>, goneConfigs: set<Id>, entities: set<string>)
    requires Cascaded(st, st', gone, goneConfigs, entities) && Tables(st) && Matched(st, w) && SafeCascade(st, w, gone, goneConfigs, entities)
    ensures Matched(st', w)
  {
    hide Pending, MatchDue, Matches, HasArg, HasKey, SafeCascade, Tables, Cascades, Desired, IsFull;
    forall c, g | Serves(st', g, c)
      ensures || Matches(st', c, Desired(st'.configs[g].data, st'.connections[c].override))
              || ConnectionPending(st', w, c) || ConfigPending(st', w, g) || MatchDue(w, c, g) || (st'.full && !IsFull(w))
    {
      var args := Desired(st.configs[g].data, st.connections[c].override);
      assert Serves(st, g, c);
      if Matches(st, c, args) {
        CascadeKeepsKept(st, st', c, args);
        forall k | HasArg(args, k) && !HasKey(st'.rows, c, k)
          ensures ConnectionPending(st, w, c) || ConfigPending(st, w, g) || MatchDue(w, c, g) || (st.full && !IsFull(w))
        {
          CascadeMissing(st, st', w, gone, goneConfigs, entities, c, g, k);
        }
      }
    }
  }

  lemma CascadeTask(st: Store, st': Store, w: Worker, gone: set<ConnectionId>, goneConfigs: set<Id>, entities: set<string>, t: Task)
    requires Cascaded(st, st', gone, goneConfigs, entities) && TaskFresh(st, w, t)
    ensures TaskFresh(st', w, t)
    ensures HeadChanged(st, t) ==> HeadChanged(st', t)
  {
    hide Pending, Desired, Cascades;
    assert forall g :: Serves(st', g, t.connection) ==> Serves(st, g, t.connection);
  }

  lemma CascadeHead(st: Store, st': Store, w: Worker, gone: set<ConnectionId>, goneConfigs: set<Id>, entities: set<string>)
    requires Cascaded(st, st', gone, goneConfigs, entities) && Tables(st) && SafeCascade(st, w, gone, goneConfigs, entities)
    requires w.Reconciling? && w.todo != [] && w.stage != Create && HeadCreated(st, w, w.todo[0])
    ensures HeadCreated(st', w, w.todo[0])
  {
    var t := w.todo[0];
    hide Pending, MatchDue, InPlan, Tables, Cascades, Desired, StillWanted, DeletionDue;
    forall g, k | Serves(st', g, t.connection) && HasArg(t.args, k) && !HasKey(st'.rows, t.connection, k)
      ensures ConnectionPending(st', w, t.connection) || ConfigPending(st', w, g)
    {
      assert Serves(st, g, t.connection);
      if HasKey(st.rows, t.connection, k) {
        var s :| s in st.rows && st.rows[s].connection == t.connection && st.rows[s].key == k;
        RowsConfig(st, s, t.connection, g);
        assert s !in st'.rows;
        assert VanishesRecorded(st, w, s, gone, goneConfigs);
      }
    }
  }

  lemma CascadeConfig(st: Store, st': Store, w: Worker, gone: set<ConnectionId>, goneConfigs: set<Id>, entities: set<string>, g: Id, config: SyncConfig)
    requires Cascaded(st, st', gone, goneConfigs, entities) && Tables(st) && ConfigFresh(st, w, g, config)
    ensures ConfigFresh(st', w, g, config)
  {
    hide Pending, Ids, UniqueKeys, Cascades;
  }

  lemma CascadePlanRow(st: Store, st': Store, w: Worker, gone: set<ConnectionId>, goneConfigs: set<Id>, entities: set<string>, s: Id, row: SyncRow)
    requires Cascaded(st, st', gone, goneConfigs, entities) && SafeCascade(st, w, gone, goneConfigs, entities)
    requires InPlan(w, s) && RowFresh(st, CapturedSyncChanges(w), s, row)
    ensures RowFresh(st', CapturedSyncChanges(w), s, row)
  {
    hide Pending, InPlan, StillWanted, AtHead, DeletionDue, MatchDue, Cascades;
    if s in st.rows && s !in st'.rows {
      assert VanishesRecorded(st, w, s, gone, goneConfigs);
    }
  }

  lemma CascadeReads(st: Store, st': Store, w: Worker, gone: set<ConnectionId>, goneConfigs: set<Id>, entities: set<string>)
    requires Cascaded(st, st', gone, goneConfigs, entities) && Tables(st) && Fresh(st, w) && SafeCascade(st, w, gone, goneConfigs, entities)
    requires w.Reconciling? || w.ReadConfigs?
    ensures Fresh(st', w)
  {
    assert st'.next == st.next && st'.seen == st.seen;
    assert w.ReadConfigs? ==> forall c :: c in st'.connections ==> c in st.connections && st'.connections[c] == st.connections[c];
    hide Pending, Tables, TaskFresh, HeadCreated, HeadChanged, ConfigFresh, SafeCascade, Cascaded;
    forall g, config | ConfigFresh(st, w, g, config) ensures ConfigFresh(st', w, g, config) {
      CascadeConfig(st, st', w, gone, goneConfigs, entities, g, config);
    }
    forall t | TaskFresh(st, w, t) ensures TaskFresh(st', w, t) && (HeadChanged(st, t) ==> HeadChanged(st', t)) {
      CascadeTask(st, st', w, gone, goneConfigs, entities, t);
    }
    if w.Reconciling? && w.todo != [] && w.stage != Create {
      CascadeHead(st, st', w, gone, goneConfigs, entities);
    }
  }

  lemma CascadeFresh(st: Store, st': Store, w: Worker, gone: set<ConnectionId>, goneConfigs: set<Id>, entities: set<string>)
    requires Cascaded(st, st', gone, goneConfigs, entities) && Tables(st) && Fresh(st, w) && SafeCascade(st, w, gone, goneConfigs, entities)
    ensures Fresh(st', w)
  {
    if w.Reconciling? || w.ReadConfigs? {
      hide *;
      CascadeReads(st, st', w, gone, goneConfigs, entities);
    } else {
      assert st'.next == st.next && forall s :: Gone(st, s) ==> Gone(st', s);
      hide Pending, Tables, RowFresh, ConfigFresh, SafeCascade, Cascaded, Gone;
      forall s, row | InPlan(w, s) && RowFresh(st, CapturedSyncChanges(w), s, row) ensures RowFresh(st', CapturedSyncChanges(w), s, row) {
        CascadePlanRow(st, st', w, gone, goneConfigs, entities, s, row);
      }
      forall g, config | ConfigFresh(st, w, g, config) ensures ConfigFresh(st', w, g, config) {
        CascadeConfig(st, st', w, gone, goneConfigs, entities, g, config);
      }
    }
  }

  lemma SafeCascadeKeepsInv(st: Store, st': Store, w: Worker, gone: set<ConnectionId>, goneConfigs: set<Id>, entities: set<string>)
    requires Cascaded(st, st', gone, goneConfigs, entities) && Inv(st, w) && SafeCascade(st, w, gone, goneConfigs, entities)
    ensures Inv(st', w)
  {
    assert forall s :: s in st'.rows ==> s in st.rows && st'.rows[s] == st.rows[s];
    hide Tables, Offsets, Fresh, Backed, Covered, NoOrphans, Matched, Cascaded, SafeCascade;
    CascadeTables(st, st', gone, goneConfigs, entities);
    CascadeCovered(st, st', w, gone, goneConfigs, entities);
    CascadeBacked(st, st', w, gone, goneConfigs, entities);
    CascadeNoOrphans(st, st', w, gone, goneConfigs, entities);
    CascadeMatched(st, st', w, gone, goneConfigs, entities);
    CascadeFresh(st, st', w, gone, goneConfigs, entities);
  }

  /** Conversely, a row that vanishes unrecorded breaks the invariant. */
  lemma UnsafeCascadeBreaksInv(st: Store, st': Store, w: Worker, gone: set<ConnectionId>, goneConfigs: set<Id>, entities: set<string>, s: Id)
    requires Cascaded(st, st', gone, goneConfigs, entities) && Inv(st, w) && Inv(st', w)
    requires s in st.rows && Cascades(st.rows[s], gone, goneConfigs, entities)
    ensures VanishesRecorded(st, w, s, gone, goneConfigs)
  {
    VanishedFacts(st, st', gone, goneConfigs, entities, s);
    hide Inv, Cascaded, Cascades, InPlan, AtHead, StillWanted, SyncPending, ConnectionPending, ConfigPending, MatchDue, DeletionDue;
    InvParts(st', w);
    VanishedSchedule(st, st', w, s);
    VanishedWanted(st, st', w, gone, goneConfigs, s);
    VanishedHead(st, st', w, gone, goneConfigs, s);
  }

  lemma InvParts(st: Store, w: Worker)
    requires Inv(st, w)
    ensures NoOrphans(st, w) && Fresh(st, w) && Matched(st, w)
  {
    hide Tables, Offsets, NoOrphans, Fresh, Matched, Backed, Covered;
  }

  lemma VanishedFacts(st: Store, st': Store, gone: set<ConnectionId>, goneConfigs: set<Id>, entities: set<string>, s: Id)
    requires Cascaded(st, st', gone, goneConfigs, entities) && Tables(st)
    requires s in st.rows && Cascades(st.rows[s], gone, goneConfigs, entities)
    ensures st' == st.(connections := st.connections - gone, configs := st.configs - goneConfigs, rows := st'.rows)
    ensures s !in st'.rows && !HasKey(st'.rows, st.rows[s].connection, st.rows[s].key)
    ensures Serves(st, st.rows[s].config, st.rows[s].connection)
  {
    hide Cascades, Ids;
    VanishedKey(st, st', st.rows[s].connection, s);
  }

  lemma VanishedWanted(st: Store, st': Store, w: Worker, gone: set<ConnectionId>, goneConfigs: set<Id>, s: Id)
    requires st' == st.(connections := st.connections - gone, configs := st.configs - goneConfigs, rows := st'.rows)
    requires s in st.rows && !HasKey(st'.rows, st.rows[s].connection, st.rows[s].key)
    requires Serves(st, st.rows[s].config, st.rows[s].connection) && Matched(st', w)
    ensures StillWanted(st, st.rows[s], gone, goneConfigs) ==>
      ConnectionPending(st, w, st.rows[s].connection) || ConfigPending(st, w, st.rows[s].config)
      || MatchDue(w, st.rows[s].connection, st.rows[s].config) || (st.full && !IsFull(w))
  {
    hide Pending, MatchDue, Desired, HasArg, HasKey, KeptBy, IsFull;
    if StillWanted(st, st.rows[s], gone, goneConfigs) {
      assert Serves(st', st.rows[s].config, st.rows[s].connection);
    }
  }

  lemma VanishedHead(st: Store, st': Store, w: Worker, gone: set<ConnectionId>, goneConfigs: set<Id>, s: Id)
    requires st' == st.(connections := st.connections - gone, configs := st.configs - goneConfigs, rows := st'.rows)
    requires s in st.rows && !HasKey(st'.rows, st.rows[s].connection, st.rows[s].key)
    requires Serves(st, st.rows[s].config, st.rows[s].connection) && Fresh(st', w)
    ensures AtHead(w, st.rows[s]) && st.rows[s].connection !in gone && st.rows[s].config !in goneConfigs ==>
      ConnectionPending(st, w, st.rows[s].connection) || ConfigPending(st, w, st.rows[s].config)
  {
    hide Pending, TaskFresh, ConfigFresh, HasArg, HasKey;
    if AtHead(w, st.rows[s]) && st.rows[s].connection !in gone && st.rows[s].config !in goneConfigs {
      assert Serves(st', st.rows[s].config, st.rows[s].connection) && HeadCreated(st', w, w.todo[0]);
    }
  }

  lemma VanishedSchedule(st: Store, st': Store, w: Worker, s: Id)
    requires st'.schedules == st.schedules && st'.syncChanges == st.syncChanges && s !in st'.rows && NoOrphans(st', w) && Fresh(st', w)
    ensures s in st.schedules ==> SyncPending(st, w, s) || DeletionDue(w, s)
    ensures InPlan(w, s) ==> SyncPending(st, w, s)
  {
    hide Pending, ConfigFresh;
  }

  lemma VanishedKey(st: Store, st': Store, c: ConnectionId, s: Id)
    requires UniqueKeys(st.rows) && s in st.rows && s !in st'.rows && st.rows[s].connection == c
    requires forall t :: t in st'.rows ==> t in st.rows && st'.rows[t] == st.rows[t]
    ensures !HasKey(st'.rows, c, st.rows[s].key)
  {
  }

  lemma CascadeIsCascaded(st: Store, gone: set<ConnectionId>, goneConfigs: set<Id>, entities: set<string>)
    requires Ids(st) && Enabled(st, CascadeDelete(gone, goneConfigs, entities))
    ensures Cascaded(st, Apply(st, CascadeDelete(gone, goneConfigs, entities)), gone, goneConfigs, entities)
  {
    hide Ids;
  }

  /** The invariant survives a cascading deletion exactly when every row that vanishes
      is recorded. */
  lemma CascadeKeepsInv(st: Store, st': Store, w: Worker, gone: set<ConnectionId>, goneConfigs: set<Id>, entities: set<string>)
    requires Ids(st) && Enabled(st, CascadeDelete(gone, goneConfigs, entities)) && st' == Apply(st, CascadeDelete(gone, goneConfigs, entities))
    requires Inv(st, w)
    ensures Inv(st', w) <==> SafeCascade(st, w, gone, goneConfigs, entities)
  {
    hide Inv, Apply, Ids, Cascaded, VanishesRecorded, Enabled;
    CascadeIsCascaded(st, gone, goneConfigs, entities);
    if SafeCascade(st, w, gone, goneConfigs, entities) {
      SafeCascadeKeepsInv(st, st', w, gone, goneConfigs, entities);
    } else if Inv(st', w) {
      forall s | s in st.rows && Cascades(st.rows[s], gone, goneConfigs, entities) ensures VanishesRecorded(st, w, s, gone, goneConfigs) {
        UnsafeCascadeBreaksInv(st, st', w, gone, goneConfigs, entities, s);
      }
    }
  }

  // ---- Upserting a connection

  /** The upsert finds the customer's connection, or nothing is configured for the new
      one, or what would give it its syncs is still to come: an event not yet captured,
      the rest of the running pass, or a requested full one. */
  ghost predicate SafeUpsert(st: Store, w: Worker, c: ConnectionId, customer: Id, provider: Id) {
    || Connected(st.connections, customer, provider)
    || forall g :: g in st.configs && st.configs[g].provider == provider ==>
         || Desired(st.configs[g].data, None) == []
         || ConfigPending(st, w, g) || MatchDue(w, c, g) || (st.full && !IsFull(w))
  }

  /** A connection without syncs is as a config wants it when that wants none. */
  lemma BareConnectionMatches(st: Store, c: ConnectionId, args: seq<SyncArgs>)
    requires forall s :: s in st.rows ==> st.rows[s].connection != c
    ensures Matches(st, c, args) <==> args == []
  {
    if args != [] {
      assert HasArg(args, args[0].key) && !HasKey(st.rows, c, args[0].key);
    }
  }

  /** What Matched asks of one connection and config. */
  ghost predicate InLine(st: Store, w: Worker, c: ConnectionId, g: Id)
    requires Serves(st, g, c)
  {
    || Matches(st, c, Desired(st.configs[g].data, st.connections[c].override))
    || ConnectionPending(st, w, c) || ConfigPending(st, w, g) || MatchDue(w, c, g) || (st.full && !IsFull(w))
  }

  lemma MatchedIsInLine(st: Store, w: Worker)
    ensures Matched(st, w) <==> forall c, g :: Serves(st, g, c) ==> InLine(st, w, c, g)
  {
    hide Matches, Pending, MatchDue, Desired, IsFull;
  }

  lemma OthersStayInLine(st: Store, w: Worker, c: ConnectionId, customer: Id, provider: Id, d: ConnectionId, g: Id)
    requires var st' := WithConnection(st, c, customer, provider); d != c && Serves(st', g, d)
    ensures Serves(st, g, d) && (InLine(WithConnection(st, c, customer, provider), w, d, g) <==> InLine(st, w, d, g))
  {
    hide Pending, MatchDue, Desired, HasArg, HasKey, KeptBy, IsFull;
    assert forall args :: Matches(st, d, args) <==> Matches(WithConnection(st, c, customer, provider), d, args);
    hide Matches;
  }

  /** A new connection has neither rows nor events. */
  lemma NothingOfNew(st: Store, w: Worker, c: ConnectionId)
    requires Tables(st) && c !in st.seen
    ensures (forall s :: s in st.rows ==> st.rows[s].connection != c) && !ConnectionPending(st, w, c)
  {
    hide UniqueKeys;
  }

  lemma SameEvents(st: Store, w: Worker, c: ConnectionId, customer: Id, provider: Id)
    ensures ConnectionPending(WithConnection(st, c, customer, provider), w, c) <==> ConnectionPending(st, w, c)
  {
  }

  lemma NewIsInLine(st: Store, w: Worker, c: ConnectionId, customer: Id, provider: Id, g: Id)
    requires Tables(st) && c !in st.seen && g in st.configs && st.configs[g].provider == provider
    ensures var st' := WithConnection(st, c, customer, provider);
            && Serves(st', g, c)
            && (InLine(st', w, c, g) <==>
                  || Desired(st.configs[g].data, None) == []
                  || ConfigPending(st, w, g) || MatchDue(w, c, g) || (st.full && !IsFull(w)))
  {
    NothingOfNew(st, w, c);
    hide Tables, ConnectionPending, Pending, MatchDue, Desired, IsFull, Matches;
    assert !ConnectionPending(WithConnection(st, c, customer, provider), w, c) by { SameEvents(st, w, c, customer, provider); }
    BareConnectionMatches(WithConnection(st, c, customer, provider), c, Desired(st.configs[g].data, None));
  }

  lemma UpsertMatched(st: Store, w: Worker, c: ConnectionId, customer: Id, provider: Id)
    requires Tables(st) && Matched(st, w) && c !in st.seen && !Connected(st.connections, customer, provider)
    ensures Matched(WithConnection(st, c, customer, provider), w) <==> SafeUpsert(st, w, c, customer, provider)
  {
    var st' := WithConnection(st, c, customer, provider);
    MatchedIsInLine(st, w);
    MatchedIsInLine(st', w);
    forall g ensures Serves(st', g, c) <==> g in st.configs && st.configs[g].provider == provider {
    }
    hide Tables, Matched, InLine, Serves, WithConnection, Connected, ConnectionPending, ConfigPending, MatchDue, Desired, IsFull;
    forall d, g | Serves(st', g, d) && d != c ensures InLine(st', w, d, g) {
      OthersStayInLine(st, w, c, customer, provider, d, g);
    }
    forall g | g in st.configs && st.configs[g].provider == provider
      ensures Serves(st', g, c)
      ensures InLine(st', w, c, g) <==>
              || Desired(st.configs[g].data, None) == []
              || ConfigPending(st, w, g) || MatchDue(w, c, g) || (st.full && !IsFull(w))
    {
      NewIsInLine(st, w, c, customer, provider, g);
    }
  }

  lemma UpsertRows(st: Store, w: Worker, c: ConnectionId, customer: Id, provider: Id)
    requires Offsets(st) && Covered(st, w) && NoOrphans(st, w)
    ensures var st' := WithConnection(st, c, customer, provider); Offsets(st') && Covered(st', w) && NoOrphans(st', w)
  {
    hide StringToNumber, Pending, RowDue, PeriodOf;
    var st' := WithConnection(st, c, customer, provider);
    forall s | s in st'.rows ensures RowCovered(st', w, s) {
      assert RowCovered(st, w, s);
    }
  }

  /** What the worker owes the new connection is backed by an event. */
  lemma NewIsBacked(st: Store, w: Worker, c: ConnectionId, g: Id)
    requires Fresh(st, w) && Backed(st, w) && c !in st.seen && !IsFull(w) && MatchDue(w, c, g)
    ensures Pending(st.connectionChanges, {}, c) || Pending(st.configChanges, {}, g)
  {
    if w.Reconciling? {
      TasksSeen(st, w);
    }
    hide TaskFresh, HeadCreated, HeadChanged, ConfigFresh, PlanFresh, RowFresh, RowDue, DeletionDue, Pending;
  }

  lemma TasksSeen(st: Store, w: Worker)
    requires Fresh(st, w) && w.Reconciling?
    ensures forall t :: t in w.todo ==> t.connection in st.seen
  {
    hide HeadCreated, HeadChanged, ConfigFresh;
    assert forall t :: t in w.todo ==> TaskFresh(st, w, t);
  }

  lemma UpsertBacked(st: Store, w: Worker, c: ConnectionId, customer: Id, provider: Id)
    requires Fresh(st, w) && Backed(st, w) && c !in st.seen
    ensures Backed(WithConnection(st, c, customer, provider), w)
  {
    var st' := WithConnection(st, c, customer, provider);
    hide Fresh;
    forall g | !IsFull(w) && MatchDue(w, c, g) ensures Pending(st.connectionChanges, {}, c) || Pending(st.configChanges, {}, g) {
      hide *;
      NewIsBacked(st, w, c, g);
    }
    hide Pending, RowDue, MatchDue, DeletionDue, ConfigDue;
    forall s | s in st'.rows && !IsFull(w) && RowDue(w, s, st'.rows[s]) ensures AnyEvent(st', s) {
      assert AnyEvent(st, s);
    }
    forall d, g | Serves(st', g, d) && d != c ensures Serves(st, g, d) {
    }
  }

  lemma ServesAsBefore(st: Store, c: ConnectionId, customer: Id, provider: Id, d: ConnectionId)
    requires d != c
    ensures forall g :: Serves(WithConnection(st, c, customer, provider), g, d) <==> Serves(st, g, d)
  {
  }

  lemma UpsertTask(st: Store, w: Worker, c: ConnectionId, customer: Id, provider: Id, t: Task)
    requires TaskFresh(st, w, t) && c !in st.seen
    ensures TaskFresh(WithConnection(st, c, customer, provider), w, t)
  {
    ServesAsBefore(st, c, customer, provider, t.connection);
    hide Pending, Desired, CapturedConnectionChanges, CapturedConfigChanges;
  }

  lemma UpsertHead(st: Store, w: Worker, c: ConnectionId, customer: Id, provider: Id, t: Task)
    requires TaskFresh(st, w, t) && c !in st.seen
    ensures var st' := WithConnection(st, c, customer, provider);
            (HeadCreated(st, w, t) ==> HeadCreated(st', w, t)) && (HeadChanged(st, t) ==> HeadChanged(st', t))
  {
    assert t.connection in st.seen;
    ServesAsBefore(st, c, customer, provider, t.connection);
    hide TaskFresh, Pending, HasArg, HasKey, Serves;
  }

  lemma UpsertConfig(st: Store, w: Worker, c: ConnectionId, customer: Id, provider: Id, g: Id, config: SyncConfig)
    requires ConfigFresh(st, w, g, config)
    ensures ConfigFresh(WithConnection(st, c, customer, provider), w, g, config)
  {
    hide Pending;
  }

  lemma UpsertFresh(st: Store, w: Worker, c: ConnectionId, customer: Id, provider: Id)
    requires Fresh(st, w) && c !in st.seen
    ensures Fresh(WithConnection(st, c, customer, provider), w)
  {
    var st' := WithConnection(st, c, customer, provider);
    assert st'.next == st.next && st.seen <= st'.seen && forall s :: Gone(st, s) ==> Gone(st', s);
    forall g, config | ConfigFresh(st, w, g, config) ensures ConfigFresh(st', w, g, config) {
      UpsertConfig(st, w, c, customer, provider, g, config);
    }
    forall ids, s, row | RowFresh(st, ids, s, row) ensures RowFresh(st', ids, s, row) {
    }
    hide Pending, TaskFresh, HeadCreated, HeadChanged, RowFresh, ConfigFresh, Gone;
    forall t | TaskFresh(st, w, t) ensures TaskFresh(st', w, t) && (HeadCreated(st, w, t) ==> HeadCreated(st', w, t)) && (HeadChanged(st, t) ==> HeadChanged(st', t)) {
      UpsertTask(st, w, c, customer, provider, t);
      UpsertHead(st, w, c, customer, provider, t);
    }
  }

  /** The invariant survives the upsert of a connection exactly when it is safe. */
  lemma UpsertKeepsInv(st: Store, st': Store, w: Worker, c: ConnectionId, customer: Id, provider: Id)
    requires Ids(st) && Enabled(st, UpsertConnection(c, customer, provider)) && st' == Apply(st, UpsertConnection(c, customer, provider))
    requires Inv(st, w)
    ensures Inv(st', w) <==> SafeUpsert(st, w, c, customer, provider)
  {
    if Connected(st.connections, customer, provider) {
      hide Inv;
    } else {
      hide Ids, Tables, Offsets, Fresh, Backed, Covered, NoOrphans, Matched, SafeUpsert, WithConnection, Connected;
      WithConnectionTables(st, c, customer, provider);
      UpsertRows(st, w, c, customer, provider);
      UpsertBacked(st, w, c, customer, provider);
      UpsertFresh(st, w, c, customer, provider);
      UpsertMatched(st, w, c, customer, provider);
    }
  }

  // ---- All writes

  ghost predicate SafeWrite(st: Store, w: Worker, a: Write)
    requires Ids(st) && Enabled(st, a)
  {
    match a
    case Tamper(s, byHand) => SafeByHand(st, w, s, byHand)
    case CascadeDelete(gone, goneConfigs, entities) => SafeCascade(st, w, gone, goneConfigs, entities)
    case UpsertConnection(c, customer, provider) => SafeUpsert(st, w, c, customer, provider)
    case _ => true
  }

  /** The invariant survives a write exactly when the write is safe; every write that
      records its event is. */
  lemma WriteIsSafe(st: Store, st': Store, w: Worker, a: Write)
    requires Ids(st) && Enabled(st, a) && st' == Apply(st, a)
    requires Inv(st, w)
    ensures Inv(st', w) <==> SafeWrite(st, w, a)
  {
    hide Inv, Apply, Ids, SafeByHand, SafeCascade, SafeUpsert;
    match a {
      case Tamper(s, byHand) => TamperKeepsInv(st, st', w, s, byHand);
      case CascadeDelete(gone, goneConfigs, entities) => CascadeKeepsInv(st, st', w, gone, goneConfigs, entities);
      case UpsertConnection(c, customer, provider) => UpsertKeepsInv(st, st', w, c, customer, provider);
      case _ => WriteKeepsInv(st, w, a);
    }
  }
}
