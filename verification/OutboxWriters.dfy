/** Writers keep the outbox invariant, whatever the worker is doing, because every
    write announces what it changes with an event recorded in the same transaction. */
module OutboxWriters {
  import opened SyncTypes
  import opened Reconcile
  import opened Outbox
  import opened OutboxInvariant

  /** An event for t that is newer than every id handed out before `next`. */
  ghost predicate New<T>(changes: map<Id, T>, next: Id, t: T) {
    exists e :: e in changes && e >= next && changes[e] == t
  }

  ghost predicate EventsKept<T>(changes: map<Id, T>, changes': map<Id, T>) {
    forall e :: e in changes ==> e in changes' && changes'[e] == changes[e]
  }

  /** A row is new, or unchanged up to its paused flag, whose change is announced. */
  ghost predicate RowAnnounced(st: Store, st': Store, s: Id)
    requires s in st'.rows
  {
    if s in st.rows then
      && st'.rows[s].connection == st.rows[s].connection && st'.rows[s].config == st.rows[s].config
      && st'.rows[s].key == st.rows[s].key
      && (st'.rows[s].paused == st.rows[s].paused || New(st'.syncChanges, st.next, s))
    else
      st.next <= s && st'.rows[s].connection !in st.seen && New(st'.syncChanges, st.next, s)
  }

  ghost predicate ConfigAnnounced(st: Store, st': Store, g: Id)
    requires g in st'.configs
  {
    if g in st.configs then
      && st'.configs[g].provider == st.configs[g].provider
      && (st'.configs[g].data == st.configs[g].data || New(st'.configChanges, st.next, g))
    else
      st.next <= g && New(st'.configChanges, st.next, g)
  }

  ghost predicate ConnectionAnnounced(st: Store, st': Store, c: ConnectionId)
    requires c in st'.connections
  {
    if c in st.connections then
      && st'.connections[c].provider == st.connections[c].provider
      && (st'.connections[c].override == st.connections[c].override || New(st'.connectionChanges, st.next, c))
    else
      c !in st.seen && forall g :: Serves(st', g, c) ==> Matches(st', c, Desired(st'.configs[g].data, st'.connections[c].override))
  }

  /** Only a manual change touches schedules: those of rows, with the flag raised. */
  ghost predicate SchedulesKept(st: Store, st': Store, full: bool) {
    && (forall s :: s in st'.schedules ==>
          && s in st.schedules
          && st'.schedules[s].connection == st.schedules[s].connection
          && st'.schedules[s].every == st.schedules[s].every && st'.schedules[s].offset == st.schedules[s].offset)
    && (forall s :: s in st.schedules && (s in st'.schedules ==> st'.schedules[s].paused != st.schedules[s].paused) ==>
          s in st'.rows && st'.full && !full)
  }

  /** Ids and events only grow. */
  ghost predicate Grown(st: Store, st': Store) {
    && st.next <= st'.next && st.seen <= st'.seen && (st.full ==> st'.full)
    && EventsKept(st.connectionChanges, st'.connectionChanges)
    && EventsKept(st.configChanges, st'.configChanges)
    && EventsKept(st.syncChanges, st'.syncChanges)
  }

  ghost predicate RowsAnnounced(st: Store, st': Store) {
    && (forall s :: s in st'.rows ==> RowAnnounced(st, st', s))
    && (forall s :: s in st.rows && s !in st'.rows ==>
          && New(st'.syncChanges, st.next, s)
          && !(st.rows[s].connection in st'.connections && st.rows[s].config in st'.configs))
  }

  ghost predicate ConfigsAnnounced(st: Store, st': Store) {
    forall g :: g in st'.configs ==> ConfigAnnounced(st, st', g)
  }

  ghost predicate ConnectionsAnnounced(st: Store, st': Store) {
    forall c :: c in st'.connections ==> ConnectionAnnounced(st, st', c)
  }

  ghost predicate Announced(st: Store, st': Store, full: bool) {
    && Grown(st, st') && RowsAnnounced(st, st') && ConfigsAnnounced(st, st') && ConnectionsAnnounced(st, st')
    && SchedulesKept(st, st', full)
  }

  /** Only the worker writes the strategy of a row. */
  ghost predicate StrategiesKept(st: Store, st': Store) {
    forall s :: s in st.rows && s in st'.rows ==> st'.rows[s].strategy == st.rows[s].strategy
  }

  // ---- Announced changes keep the invariant

  lemma StillPending<T>(changes: map<Id, T>, changes': map<Id, T>)
    requires EventsKept(changes, changes')
    ensures forall captured, t :: Pending(changes, captured, t) ==> Pending(changes', captured, t)
  {
    forall captured, t | Pending(changes, captured, t) ensures Pending(changes', captured, t) {
      var e :| e in changes && e !in captured && changes[e] == t;
      assert e in changes' && changes'[e] == t;
    }
  }

  lemma NewIsPending<T>(changes: map<Id, T>, next: Id, captured: set<Id>)
    requires Below(captured, next)
    ensures forall t :: New(changes, next, t) ==> Pending(changes, captured, t)
  {
    forall t | New(changes, next, t) ensures Pending(changes, captured, t) {
      var e :| e in changes && e >= next && changes[e] == t;
      assert e !in captured;
    }
  }

  /** What the change events say, seen from the worker. */
  ghost predicate PendingFacts(st: Store, st': Store, w: Worker) {
    && (forall c :: ConnectionPending(st, w, c) ==> ConnectionPending(st', w, c))
    && (forall g :: ConfigPending(st, w, g) ==> ConfigPending(st', w, g))
    && (forall s :: SyncPending(st, w, s) ==> SyncPending(st', w, s))
    && (forall c :: New(st'.connectionChanges, st.next, c) ==> ConnectionPending(st', w, c))
    && (forall g :: New(st'.configChanges, st.next, g) ==> ConfigPending(st', w, g))
    && (forall s :: New(st'.syncChanges, st.next, s) ==> SyncPending(st', w, s))
  }

  /** The same for the events of any age. */
  ghost predicate EventFacts(st: Store, st': Store) {
    && (forall c :: Pending(st.connectionChanges, {}, c) ==> Pending(st'.connectionChanges, {}, c))
    && (forall g :: Pending(st.configChanges, {}, g) ==> Pending(st'.configChanges, {}, g))
    && (forall s :: Pending(st.syncChanges, {}, s) ==> Pending(st'.syncChanges, {}, s))
    && (forall c :: New(st'.connectionChanges, st.next, c) ==> Pending(st'.connectionChanges, {}, c))
    && (forall g :: New(st'.configChanges, st.next, g) ==> Pending(st'.configChanges, {}, g))
    && (forall s :: New(st'.syncChanges, st.next, s) ==> Pending(st'.syncChanges, {}, s))
  }

  lemma PendingStays(st: Store, st': Store, w: Worker)
    requires CapturedOld(st, w) && Grown(st, st')
    ensures PendingFacts(st, st', w) && EventFacts(st, st')
  {
    var a, b, c := CapturedConnectionChanges(w), CapturedConfigChanges(w), CapturedSyncChanges(w);
    hide EventsKept, Below, Pending, New, CapturedConnectionChanges, CapturedConfigChanges, CapturedSyncChanges;
    EventsStay(st.connectionChanges, st'.connectionChanges, st.next, a);
    EventsStay(st.configChanges, st'.configChanges, st.next, b);
    EventsStay(st.syncChanges, st'.syncChanges, st.next, c);
    hide CapturedOld, Grown;
  }

  lemma EventsStay<T>(changes: map<Id, T>, changes': map<Id, T>, next: Id, captured: set<Id>)
    requires EventsKept(changes, changes') && Below(captured, next)
    ensures forall t :: Pending(changes, captured, t) ==> Pending(changes', captured, t)
    ensures forall t :: New(changes', next, t) ==> Pending(changes', captured, t)
    ensures forall t :: Pending(changes, {}, t) ==> Pending(changes', {}, t)
    ensures forall t :: New(changes', next, t) ==> Pending(changes', {}, t)
  {
    hide Pending, New, EventsKept;
    StillPending(changes, changes');
    NewIsPending(changes', next, captured);
    NewIsPending(changes', next, {});
  }

  lemma RowDueByParent(w: Worker, s: Id, row: SyncRow, row': SyncRow)
    requires row'.connection == row.connection && row'.config == row.config
    ensures RowDue(w, s, row') <==> RowDue(w, s, row)
  {
  }

  lemma AnnouncedRow(st: Store, st': Store, w: Worker, s: Id)
    requires s in st.rows && s in st'.rows && RowAnnounced(st, st', s) && RowCovered(st, w, s)
    requires st'.rows[s].strategy == st.rows[s].strategy || RowDue(w, s, st.rows[s])
    requires st'.rows[s].config in st'.configs && ConfigAnnounced(st, st', st'.rows[s].config)
    requires PendingFacts(st, st', w) && SchedulesKept(st, st', IsFull(w)) && (st.full ==> st'.full)
    ensures RowCovered(st', w, s)
  {
    RowDueByParent(w, s, st.rows[s], st'.rows[s]);
    hide ConfigPending, ConnectionPending, SyncPending, RowDue, New, IsFull;
  }

  lemma AnnouncedCovered(st: Store, st': Store, w: Worker)
    requires Announced(st, st', IsFull(w)) && PendingFacts(st, st', w) && Covered(st, w)
    requires forall s :: s in st'.rows ==> st'.rows[s].config in st'.configs
    requires forall s :: s in st.rows && s in st'.rows ==> st'.rows[s].strategy == st.rows[s].strategy || RowDue(w, s, st.rows[s])
    ensures Covered(st', w)
  {
    hide ConnectionAnnounced, ConfigAnnounced, ConfigPending, ConnectionPending, SyncPending, RowDue, New, IsFull, SchedulesKept;
    forall s | s in st'.rows ensures RowCovered(st', w, s) {
      assert RowAnnounced(st, st', s);
      if s in st.rows {
        hide RowCovered;
        AnnouncedRow(st, st', w, s);
      }
    }
  }

  lemma AnnouncedNoOrphans(st: Store, st': Store, w: Worker)
    requires Announced(st, st', IsFull(w)) && PendingFacts(st, st', w) && NoOrphans(st, w)
    ensures NoOrphans(st', w)
  {
    hide ConnectionAnnounced, ConfigAnnounced, RowAnnounced, ConfigPending, ConnectionPending, SyncPending, New, IsFull, DeletionDue;
  }

  lemma AnnouncedMatches(st: Store, st': Store, w: Worker, c: ConnectionId, g: Id, args: seq<SyncArgs>)
    requires Announced(st, st', IsFull(w)) && Tables(st) && c in st.connections && Serves(st, g, c) && Serves(st', g, c)
    requires Matches(st, c, args)
    ensures Matches(st', c, args)
  {
    hide New, IsFull, SchedulesKept, ConnectionAnnounced, ConfigAnnounced, EventsKept, UniqueKeys;
    assert c in st.seen;
    forall s | s in st'.rows && st'.rows[s].connection == c
      ensures KeptBy(args, st'.rows[s].key)
    {
      assert RowAnnounced(st, st', s);
    }
    forall k | HasArg(args, k) ensures HasKey(st'.rows, c, k) {
      var s :| s in st.rows && st.rows[s].connection == c && st.rows[s].key == k;
      assert Serves(st, st.rows[s].config, c);
      assert s in st'.rows && RowAnnounced(st, st', s);
    }
  }

  lemma AnnouncedMatched(st: Store, st': Store, w: Worker)
    requires Announced(st, st', IsFull(w)) && PendingFacts(st, st', w) && Matched(st, w) && Tables(st)
    ensures Matched(st', w)
  {
    forall c, g | Serves(st', g, c)
      ensures || Matches(st', c, Desired(st'.configs[g].data, st'.connections[c].override))
              || ConnectionPending(st', w, c) || ConfigPending(st', w, g) || MatchDue(w, c, g) || (st'.full && !IsFull(w))
    {
      assert ConfigAnnounced(st, st', g) && ConnectionAnnounced(st, st', c);
      if g in st.configs && c in st.connections && Matches(st, c, Desired(st.configs[g].data, st.connections[c].override)) {
        hide Announced, PendingFacts, Matched, Tables, Matches, MatchDue, ConfigPending, ConnectionPending, New;
        AnnouncedMatches(st, st', w, c, g, Desired(st.configs[g].data, st.connections[c].override));
      } else {
        hide Announced, Tables, Matches, MatchDue, ConfigPending, ConnectionPending, New;
      }
    }
  }

  lemma AnnouncedMatchBacked(st: Store, st': Store, w: Worker, c: ConnectionId, g: Id)
    requires Announced(st, st', IsFull(w)) && EventFacts(st, st') && Backed(st, w) && Fresh(st, w) && !IsFull(w)
    requires Serves(st', g, c) && MatchDue(w, c, g)
    ensures Pending(st'.connectionChanges, {}, c) || Pending(st'.configChanges, {}, g)
  {
    assert ConfigAnnounced(st, st', g) && ConnectionAnnounced(st, st', c);
    hide Announced, New, Pending, RowDue;
  }

  lemma AnnouncedRowBacked(st: Store, st': Store, w: Worker, s: Id)
    requires s in st'.rows && RowAnnounced(st, st', s) && EventFacts(st, st') && Backed(st, w) && !IsFull(w)
    requires RowDue(w, s, st'.rows[s])
    ensures AnyEvent(st', s)
  {
    if s in st.rows {
      RowDueByParent(w, s, st.rows[s], st'.rows[s]);
      hide RowDue, New, Pending;
      assert AnyEvent(st, s);
    }
  }

  /** Whatever the worker owes is still backed after an announced change. */
  lemma AnnouncedBacked(st: Store, st': Store, w: Worker)
    requires Announced(st, st', IsFull(w)) && EventFacts(st, st') && Backed(st, w) && Fresh(st, w)
    ensures Backed(st', w)
  {
    hide RowDue, MatchDue, DeletionDue, ConfigDue, Fresh, Pending, New, RowAnnounced, ConfigAnnounced, ConnectionAnnounced, AnyEvent, Serves;
    forall s | s in st'.rows && !IsFull(w) && RowDue(w, s, st'.rows[s]) ensures AnyEvent(st', s) {
      AnnouncedRowBacked(st, st', w, s);
    }
    forall c, g | !IsFull(w) && Serves(st', g, c) && MatchDue(w, c, g)
      ensures Pending(st'.connectionChanges, {}, c) || Pending(st'.configChanges, {}, g)
    {
      AnnouncedMatchBacked(st, st', w, c, g);
    }
  }

  lemma AnnouncedTask(st: Store, st': Store, w: Worker, t: Task)
    requires Announced(st, st', IsFull(w)) && PendingFacts(st, st', w) && TaskFresh(st, w, t)
    ensures TaskFresh(st', w, t)
  {
    hide Pending, New, RowAnnounced, SchedulesKept, IsFull, ConnectionPending, ConfigPending, SyncPending, Matches;
    forall g | g in st'.configs && t.connection in st'.connections
      ensures ConfigAnnounced(st, st', g) && ConnectionAnnounced(st, st', t.connection)
    {
    }
  }

  lemma AnnouncedConfig(st: Store, st': Store, w: Worker, g: Id, config: SyncConfig)
    requires Announced(st, st', IsFull(w)) && PendingFacts(st, st', w) && Tables(st) && ConfigFresh(st, w, g, config)
    ensures ConfigFresh(st', w, g, config)
  {
    hide Pending, New, RowAnnounced, ConnectionAnnounced, SchedulesKept, IsFull, ConnectionPending, ConfigPending, SyncPending, UniqueKeys;
    forall h | h in st'.configs ensures ConfigAnnounced(st, st', h) {
    }
  }

  lemma AnnouncedHead(st: Store, st': Store, w: Worker, t: Task)
    requires Announced(st, st', IsFull(w)) && PendingFacts(st, st', w) && Tables(st) && TaskFresh(st, w, t)
    ensures HeadCreated(st, w, t) ==> HeadCreated(st', w, t)
    ensures HeadChanged(st, t) ==> HeadChanged(st', t)
  {
    forall g | HeadCreated(st, w, t) && Serves(st', g, t.connection)
      ensures || (forall k :: HasArg(t.args, k) ==> HasKey(st'.rows, t.connection, k))
              || ConnectionPending(st', w, t.connection) || ConfigPending(st', w, g)
    {
      assert ConfigAnnounced(st, st', g) && ConnectionAnnounced(st, st', t.connection);
      if g in st.configs && t.connection in st.connections && !ConnectionPending(st, w, t.connection) && !ConfigPending(st, w, g) {
        assert Serves(st, g, t.connection);
        forall k | HasArg(t.args, k) ensures HasKey(st'.rows, t.connection, k) {
          HeadKeyKept(st, st', w, t.connection, g, k);
        }
      }
    }
    forall s | HeadChanged(st, t) && s in st'.rows && st'.rows[s].connection == t.connection
      ensures Pending(st'.syncChanges, {}, s)
    {
      assert RowAnnounced(st, st', s);
      StillPending(st.syncChanges, st'.syncChanges);
    }
  }

  lemma HeadKeyKept(st: Store, st': Store, w: Worker, c: ConnectionId, g: Id, k: SyncKey)
    requires Announced(st, st', IsFull(w)) && Tables(st) && Serves(st, g, c) && Serves(st', g, c) && HasKey(st.rows, c, k)
    ensures HasKey(st'.rows, c, k)
  {
    hide New, IsFull, SchedulesKept, ConnectionAnnounced, ConfigAnnounced, EventsKept, UniqueKeys;
    var s :| s in st.rows && st.rows[s].connection == c && st.rows[s].key == k;
    assert Serves(st, st.rows[s].config, c);
    assert s in st'.rows && RowAnnounced(st, st', s);
  }

  lemma AnnouncedPlanRow(st: Store, st': Store, w: Worker, ids: set<Id>, s: Id, row: SyncRow)
    requires Announced(st, st', IsFull(w)) && PendingFacts(st, st', w) && ids == CapturedSyncChanges(w)
    requires RowFresh(st, ids, s, row)
    ensures RowFresh(st', ids, s, row)
  {
    hide New, Pending, IsFull, ConnectionAnnounced, ConfigAnnounced, EventsKept, CapturedSyncChanges;
    assert SyncPending(st, w, s) ==> SyncPending(st', w, s);
    if s in st'.rows { assert RowAnnounced(st, st', s); }
  }

  lemma AnnouncedGone(st: Store, st': Store, full: bool, s: Id)
    requires Announced(st, st', full) && Gone(st, s)
    ensures Gone(st', s)
  {
    assert s in st'.rows ==> RowAnnounced(st, st', s);
  }

  lemma AnnouncedPlan(st: Store, st': Store, w: Worker, ids: set<Id>, plan: Plan)
    requires Announced(st, st', IsFull(w)) && PendingFacts(st, st', w) && Tables(st) && ids == CapturedSyncChanges(w)
    requires PlanFresh(st, w, ids, plan)
    ensures PlanFresh(st', w, ids, plan)
  {
    hide Announced, PendingFacts, Tables, RowFresh, ConfigFresh;
    forall s | s in plan.rows ensures RowFresh(st', ids, s, plan.rows[s]) {
      AnnouncedPlanRow(st, st', w, ids, s, plan.rows[s]);
    }
    forall g | g in plan.configs ensures ConfigFresh(st', w, g, plan.configs[g]) {
      AnnouncedConfig(st, st', w, g, plan.configs[g]);
    }
  }

  lemma AnnouncedConnections(st: Store, st': Store, w: Worker)
    requires Announced(st, st', IsFull(w)) && PendingFacts(st, st', w) && Fresh(st, w) && w.ReadConfigs?
    ensures forall c :: c in w.connections && c in st'.connections ==>
              && st'.connections[c].provider == w.connections[c].provider
              && (st'.connections[c].override == w.connections[c].override || ConnectionPending(st', w, c))
  {
    hide IsFull, PendingFacts, ConnectionPending;
    forall c | c in w.connections && c in st'.connections
      ensures st'.connections[c].provider == w.connections[c].provider
      ensures st'.connections[c].override == w.connections[c].override || ConnectionPending(st', w, c)
    {
      assert ConnectionAnnounced(st, st', c);
      AnnouncedConnection(st, st', w, c);
    }
  }

  lemma AnnouncedTasks(st: Store, st': Store, w: Worker)
    requires Announced(st, st', IsFull(w)) && PendingFacts(st, st', w) && Tables(st) && Fresh(st, w) && w.Reconciling?
    requires CapturedOld(st', w)
    ensures Fresh(st', w)
  {
    hide Tables, TaskFresh, HeadCreated, HeadChanged, ConfigFresh, IsFull, PendingFacts, Announced, CapturedOld;
    forall t | t in w.todo ensures TaskFresh(st', w, t) {
      AnnouncedTask(st, st', w, t);
    }
    if w.todo != [] {
      AnnouncedHead(st, st', w, w.todo[0]);
    }
    forall g | w.part.Two? && g in w.part.rest ensures ConfigFresh(st', w, g, w.part.configs[g]) {
      AnnouncedConfig(st, st', w, g, w.part.configs[g]);
    }
  }

  lemma AnnouncedReads(st: Store, st': Store, w: Worker)
    requires Announced(st, st', IsFull(w)) && PendingFacts(st, st', w) && Tables(st) && Fresh(st, w)
    requires !w.Pausing? && !w.Deleting? && !w.Upserting? && !w.Scheduling?
    ensures Fresh(st', w)
  {
    assert st.next <= st'.next && st.seen <= st'.seen;
    hide Tables, TaskFresh, HeadCreated, HeadChanged, PlanFresh, RowFresh, ConfigFresh, IsFull, PendingFacts, Announced, ConnectionPending, Gone;
    match w
    case ReadConfigs(_, ids, connections) => AnnouncedConnections(st, st', w);
    case Reconciling(_, ids, part, todo, stage) => AnnouncedTasks(st, st', w);
    case ReadRowConnections(_, ids, touched, rows) => AnnouncedRows(st, st', w, touched, rows);
    case ReadRowConfigs(_, ids, touched, rows, _) => AnnouncedRows(st, st', w, touched, rows);
    case _ =>
  }

  lemma AnnouncedFresh(st: Store, st': Store, w: Worker)
    requires Announced(st, st', IsFull(w)) && PendingFacts(st, st', w) && Tables(st) && Fresh(st, w)
    ensures Fresh(st', w)
  {
    if w.Pausing? || w.Deleting? || w.Upserting? || w.Scheduling? {
      assert st.next <= st'.next;
      hide Tables, PlanFresh, IsFull, PendingFacts, Announced, Gone;
      AnnouncedPlan(st, st', w, w.ids, w.plan);
      AnnouncedGoneAll(st, st', w);
    } else {
      hide *;
      AnnouncedReads(st, st', w);
    }
  }

  lemma AnnouncedGoneAll(st: Store, st': Store, w: Worker)
    requires Announced(st, st', IsFull(w))
    ensures forall s :: Gone(st, s) ==> Gone(st', s)
  {
    hide Announced, Gone, IsFull;
    forall s | Gone(st, s) ensures Gone(st', s) {
      AnnouncedGone(st, st', IsFull(w), s);
    }
  }

  lemma AnnouncedConnection(st: Store, st': Store, w: Worker, c: ConnectionId)
    requires PendingFacts(st, st', w) && c in st.seen && c in st'.connections && ConnectionAnnounced(st, st', c)
    ensures c in st.connections && st'.connections[c].provider == st.connections[c].provider
    ensures st'.connections[c].override == st.connections[c].override || ConnectionPending(st', w, c)
    ensures ConnectionPending(st, w, c) ==> ConnectionPending(st', w, c)
  {
  }

  lemma AnnouncedRows(st: Store, st': Store, w: Worker, touched: set<Id>, rows: map<Id, SyncRow>)
    requires Announced(st, st', IsFull(w)) && PendingFacts(st, st', w)
    requires forall s :: s in rows ==> RowFresh(st, CapturedSyncChanges(w), s, rows[s])
    requires forall s :: s in touched && s !in rows ==> Gone(st, s)
    ensures forall s :: s in rows ==> RowFresh(st', CapturedSyncChanges(w), s, rows[s])
    ensures forall s :: s in touched && s !in rows ==> Gone(st', s)
  {
    hide Announced, PendingFacts, RowFresh, CapturedSyncChanges;
    forall s | s in rows ensures RowFresh(st', CapturedSyncChanges(w), s, rows[s]) {
      AnnouncedPlanRow(st, st', w, CapturedSyncChanges(w), s, rows[s]);
    }
    forall s | s in touched && s !in rows ensures Gone(st', s) {
      AnnouncedGone(st, st', IsFull(w), s);
    }
  }

  lemma AnnouncedOffsets(st: Store, st': Store, full: bool)
    requires Announced(st, st', full) && Offsets(st) && Ids(st)
    ensures Offsets(st')
  {
    hide New, ConnectionAnnounced, ConfigAnnounced, EventsKept;
    forall s | s in st'.schedules && s in st'.rows ensures st'.schedules[s].connection == st'.rows[s].connection {
      assert RowAnnounced(st, st', s);
    }
  }

  lemma AnnouncedStored(st: Store, st': Store, w: Worker)
    requires Announced(st, st', IsFull(w)) && StrategiesKept(st, st') && Fresh(st, w) && Stored(st, w)
    ensures Stored(st', w)
  {
    if w.Scheduling? && w.left != [] && w.left[0] in st'.rows && w.left[0] in w.plan.rows {
      assert RowFresh(st, w.ids, w.left[0], w.plan.rows[w.left[0]]) && RowAnnounced(st, st', w.left[0]);
    }
    hide Announced, Fresh, StrategyOf;
  }

  lemma AnnouncedKeepsInv(st: Store, st': Store, w: Worker)
    requires Inv(st, w) && Announced(st, st', IsFull(w)) && StrategiesKept(st, st') && Tables(st')
    ensures Inv(st', w)
  {
    AnnouncedStored(st, st', w);
    hide Stored;
    AnnouncedKeepsRest(st, st', w);
  }

  /** All of the invariant but `Stored`, also when the strategy of a row is stored whose
      schedule is still to be upserted. */
  lemma AnnouncedKeepsRest(st: Store, st': Store, w: Worker)
    requires Inv(st, w) && Announced(st, st', IsFull(w)) && Tables(st')
    requires forall s :: s in st.rows && s in st'.rows ==> st'.rows[s].strategy == st.rows[s].strategy || RowDue(w, s, st.rows[s])
    ensures Stored(st', w) ==> Inv(st', w)
  {
    hide Stored, RowDue;
    assert CapturedOld(st, w) && Grown(st, st');
    assert Ids(st) && forall s :: s in st'.rows ==> st'.rows[s].config in st'.configs;
    hide Tables, Offsets, Fresh, Backed, Covered, NoOrphans, Matched, Announced, PendingFacts, EventFacts, CapturedOld, Ids, Grown;
    PendingStays(st, st', w);
    AnnouncedOffsets(st, st', IsFull(w));
    AnnouncedCovered(st, st', w);
    AnnouncedNoOrphans(st, st', w);
    AnnouncedMatched(st, st', w);
    AnnouncedBacked(st, st', w);
    AnnouncedFresh(st, st', w);
  }

  // ---- Every write announces what it changes

  lemma NewEvent<T>(changes: map<Id, T>, next: Id, e: Id, t: T)
    requires e >= next && e in changes && changes[e] == t
    ensures New(changes, next, t)
  {
  }

  lemma AddedAreNew(changes: map<Id, Id>, ids: set<Id>, next: Id)
    requires (forall s :: s in ids ==> s < next) && (forall e :: e in changes ==> e < next)
    ensures EventsKept(changes, AddChanges(changes, ids, next))
    ensures forall s :: s in ids ==> New(AddChanges(changes, ids, next), next, s)
  {
    hide AddChanges;
    forall s | s in ids ensures New(AddChanges(changes, ids, next), next, s) {
      assert AddedFor(ids, next, next + s);
    }
  }

  lemma Untouched(st: Store, st': Store, full: bool)
    ensures st'.rows == st.rows ==> RowsAnnounced(st, st')
    ensures (forall g :: g in st'.configs ==> g in st.configs && st'.configs[g] == st.configs[g]) ==> ConfigsAnnounced(st, st')
    ensures (forall c :: c in st'.connections ==> c in st.connections && st'.connections[c] == st.connections[c]) ==> ConnectionsAnnounced(st, st')
    ensures st'.schedules == st.schedules ==> SchedulesKept(st, st', full)
  {
    hide New, Matches;
  }

  /** Deleting rows together with their connection or config. */
  lemma RowsDeleted(st: Store, st': Store, ids: set<Id>)
    requires EventsKept(st.syncChanges, st'.syncChanges) && forall s :: s in ids ==> New(st'.syncChanges, st.next, s)
    requires forall s :: s in st'.rows <==> s in st.rows && s !in ids
    requires forall s :: s in st'.rows ==> st'.rows[s] == st.rows[s]
    requires forall s :: s in ids && s in st.rows ==> st.rows[s].connection !in st'.connections || st.rows[s].config !in st'.configs
    ensures RowsAnnounced(st, st')
  {
    hide New, EventsKept;
  }

  lemma FewerKeys(rows: map<Id, SyncRow>, rows': map<Id, SyncRow>)
    requires UniqueKeys(rows) && forall s :: s in rows' ==> s in rows && rows'[s] == rows[s]
    ensures UniqueKeys(rows')
  {
  }

  lemma DeletionIds(st: Store, a: Write)
    requires Ids(st) && Enabled(st, a) && (a.DeleteConnection? || a.DeleteConfig?)
    ensures Ids(Apply(st, a))
  {
    hide AddChanges;
  }

  lemma DeleteConnectionTables(st: Store, c: ConnectionId)
    requires Tables(st) && c in st.connections
    ensures Tables(Apply(st, DeleteConnection(c)))
  {
    DeletionIds(st, DeleteConnection(c));
    FewerKeys(st.rows, Apply(st, DeleteConnection(c)).rows);
    hide AddChanges, Ids, UniqueKeys;
  }

  lemma DeleteConnectionAnnounced(st: Store, c: ConnectionId, full: bool)
    requires Ids(st) && c in st.connections
    ensures Announced(st, Apply(st, DeleteConnection(c)), full)
  {
    var st' := Apply(st, DeleteConnection(c));
    AddedAreNew(st.syncChanges, RowsOf(st.rows, c), st.next);
    hide AddChanges, New, Ids, ConfigsAnnounced, ConnectionsAnnounced, RowsAnnounced, SchedulesKept;
    Untouched(st, st', full);
    RowsDeleted(st, st', RowsOf(st.rows, c));
  }

  lemma DeleteConfigTables(st: Store, g: Id)
    requires Tables(st) && g in st.configs
    ensures Tables(Apply(st, DeleteConfig(g)))
  {
    DeletionIds(st, DeleteConfig(g));
    FewerKeys(st.rows, Apply(st, DeleteConfig(g)).rows);
    hide AddChanges, Ids, UniqueKeys;
  }

  lemma DeleteConfigAnnounced(st: Store, g: Id, full: bool)
    requires Ids(st) && g in st.configs
    ensures Announced(st, Apply(st, DeleteConfig(g)), full)
  {
    hide AddChanges, New, ConfigsAnnounced, ConnectionsAnnounced, RowsAnnounced, SchedulesKept;
    var st' := Apply(st, DeleteConfig(g));
    AddedAreNew(st.syncChanges, RowsOfConfig(st.rows, g), st.next);
    hide Ids;
    Untouched(st, st', full);
    RowsDeleted(st, st', RowsOfConfig(st.rows, g));
  }

  lemma SetConnectionSyncConfigAnnounced(st: Store, c: ConnectionId, override: Option<ConnectionSyncConfig>, full: bool)
    requires Ids(st) && c in st.connections
    ensures Announced(st, Apply(st, SetConnectionSyncConfig(c, override)), full)
  {
    var st' := Apply(st, SetConnectionSyncConfig(c, override));
    NewEvent(st'.connectionChanges, st.next, st.next, c);
    hide New, Ids, ConfigsAnnounced, RowsAnnounced, SchedulesKept;
    Untouched(st, st', full);
  }

  lemma CreateConfigAnnounced(st: Store, provider: Id, data: ConfigData, full: bool)
    requires Ids(st) && Enabled(st, CreateConfig(provider, data))
    ensures Announced(st, Apply(st, CreateConfig(provider, data)), full)
  {
    var st' := Apply(st, CreateConfig(provider, data));
    NewEvent(st'.configChanges, st.next, st.next + 1, st.next);
    hide New, ConnectionsAnnounced, RowsAnnounced, SchedulesKept;
    Untouched(st, st', full);
  }

  lemma UpdateConfigAnnounced(st: Store, g: Id, data: ConfigData, full: bool)
    requires Ids(st) && g in st.configs
    ensures Announced(st, Apply(st, UpdateConfig(g, data)), full)
  {
    var st' := Apply(st, UpdateConfig(g, data));
    NewEvent(st'.configChanges, st.next, st.next, g);
    hide New, ConnectionsAnnounced, RowsAnnounced, SchedulesKept;
    Untouched(st, st', full);
  }

  lemma SetPausedAnnounced(st: Store, s: Id, paused: bool, full: bool)
    requires Ids(st) && s in st.rows
    ensures Announced(st, Apply(st, SetPaused(s, paused)), full)
  {
    var st' := Apply(st, SetPaused(s, paused));
    NewEvent(st'.syncChanges, st.next, st.next, s);
    hide New, ConnectionsAnnounced, ConfigsAnnounced, SchedulesKept;
    Untouched(st, st', full);
  }

  lemma SetRunStateAnnounced(st: Store, s: Id, state: SyncState, force: bool, full: bool)
    requires Ids(st) && s in st.rows
    ensures Announced(st, Apply(st, SetRunState(s, state, force)), full)
  {
    hide New, ConnectionsAnnounced, ConfigsAnnounced, SchedulesKept;
    Untouched(st, Apply(st, SetRunState(s, state, force)), full);
  }

  lemma FlagAnnounced(st: Store, a: Write, full: bool)
    requires Ids(st) && Enabled(st, a) && (a.RequestFull? || (a.Tamper? && !full))
    ensures Announced(st, Apply(st, a), full)
  {
    hide New, ConnectionsAnnounced, ConfigsAnnounced, RowsAnnounced;
    Untouched(st, Apply(st, a), full);
  }

  lemma ParentWriteIds(st: Store, a: Write)
    requires Ids(st) && Enabled(st, a)
    requires a.SetConnectionSyncConfig? || a.CreateConfig? || a.UpdateConfig?
    ensures Ids(Apply(st, a))
  {
  }

  lemma ParentWriteTables(st: Store, a: Write)
    requires Tables(st) && Enabled(st, a)
    requires a.SetConnectionSyncConfig? || a.CreateConfig? || a.UpdateConfig?
    ensures Tables(Apply(st, a))
  {
    ParentWriteIds(st, a);
    hide UniqueKeys, Ids;
  }

  /** Replacing a row keeps the tables in order when its key and parents stay. */
  lemma RowReplaced(st: Store, st': Store, s: Id)
    requires Tables(st) && s in st.rows && s in st'.rows
    requires st'.connections == st.connections && st'.seen == st.seen && st'.configs == st.configs && st.next <= st'.next
    requires st'.connectionChanges == st.connectionChanges && st'.configChanges == st.configChanges && st'.schedules == st.schedules
    requires st'.syncChanges == st.syncChanges || (st'.syncChanges == st.syncChanges[st.next := s] && st.next < st'.next)
    requires st'.rows == st.rows[s := st'.rows[s]]
    requires st'.rows[s].connection == st.rows[s].connection && st'.rows[s].config == st.rows[s].config && st'.rows[s].key == st.rows[s].key
    ensures Tables(st')
  {
    RowReplacedIds(st, st', s);
    hide Ids;
  }

  lemma RowReplacedIds(st: Store, st': Store, s: Id)
    requires Ids(st) && s in st.rows
    requires st'.connections == st.connections && st'.seen == st.seen && st'.configs == st.configs && st.next <= st'.next
    requires st'.connectionChanges == st.connectionChanges && st'.configChanges == st.configChanges && st'.schedules == st.schedules
    requires st'.syncChanges == st.syncChanges || (st'.syncChanges == st.syncChanges[st.next := s] && st.next < st'.next)
    requires st'.rows.Keys == st.rows.Keys
    ensures Ids(st')
  {
  }

  lemma RowWriteTables(st: Store, a: Write)
    requires Tables(st) && Enabled(st, a) && (a.SetPaused? || a.SetRunState?)
    ensures Tables(Apply(st, a))
  {
    var st' := Apply(st, a);
    hide Tables;
    RowReplaced(st, st', a.s);
  }

  lemma FlagTables(st: Store, a: Write)
    requires Tables(st) && Enabled(st, a) && (a.RequestFull? || a.Tamper?)
    ensures Tables(Apply(st, a))
  {
    hide UniqueKeys;
  }

  lemma CreateSyncsTables(st: Store, t: Task)
    requires Tables(st) && t.config.Some? && Serves(st, t.config.value, t.connection)
    ensures Tables(CreateSyncs(st, t))
  {
    CreateManyKeys(st.rows, t.connection, t.config.value, t.args, st.next);
    CreateSyncsIds(st, t);
    hide CreateMany, UniqueKeys, HasKey, HasArg, Ids;
  }

  lemma CreateSyncsIds(st: Store, t: Task)
    requires Ids(st) && t.config.Some?
    ensures Ids(CreateSyncs(st, t))
  {
    hide CreateMany, HasArg;
  }

  /** Creating a connection under a config: the connection, its syncs, their events. */
  lemma CreatedInSteps(st: Store, c: ConnectionId, customer: Id, provider: Id, g: Id, paused: bool)
    requires Ids(st) && Enabled(st, CreateConnection(c, customer, provider, Some(g), paused))
    ensures var st1 := WithConnection(st, c, customer, provider);
            var t := Task(c, Some(g), ConnectionArgs(st.configs[g].data, paused));
            && Ids(st1) && Ids(CreateSyncs(st1, t))
            && Apply(st, CreateConnection(c, customer, provider, Some(g), paused)) == AddSyncChanges(CreateSyncs(st1, t), c)
  {
    CreateSyncsIds(WithConnection(st, c, customer, provider), Task(c, Some(g), ConnectionArgs(st.configs[g].data, paused)));
    hide ConnectionArgs, CreateSyncs, AddSyncChanges, Desired;
  }

  lemma AddSyncChangesTables(st: Store, c: ConnectionId)
    requires Tables(st)
    ensures Tables(AddSyncChanges(st, c))
  {
    hide AddChanges, UniqueKeys;
  }

  lemma WithConnectionTables(st: Store, c: ConnectionId, customer: Id, provider: Id)
    requires Tables(st) && c !in st.seen
    ensures Tables(WithConnection(st, c, customer, provider))
  {
    hide UniqueKeys;
  }

  lemma CreateConnectionTables(st: Store, c: ConnectionId, customer: Id, provider: Id, config: Option<Id>, paused: bool)
    requires Tables(st) && Enabled(st, CreateConnection(c, customer, provider, config, paused))
    ensures Tables(Apply(st, CreateConnection(c, customer, provider, config, paused)))
  {
    WithConnectionTables(st, c, customer, provider);
    if config.Some? {
      hide UniqueKeys, AddChanges, CreateMany;
      var t := Task(c, config, ConnectionArgs(st.configs[config.value].data, paused));
      CreateSyncsTables(WithConnection(st, c, customer, provider), t);
      AddSyncChangesTables(CreateSyncs(WithConnection(st, c, customer, provider), t), c);
    }
  }

  lemma CreatedRowsAnnounced(st: Store, st': Store, c: ConnectionId)
    requires c !in st.seen
    requires forall s :: s in st.rows ==> s in st'.rows && st'.rows[s] == st.rows[s]
    requires forall s :: s in st'.rows && s !in st.rows ==>
               st.next <= s && st'.rows[s].connection == c && New(st'.syncChanges, st.next, s)
    ensures RowsAnnounced(st, st')
  {
    hide New;
  }

  /** Creating syncs of a connection without any, and a change for each. */
  lemma CreatedSyncs(st: Store, t: Task)
    requires Ids(st) && t.config.Some? && forall s :: s in st.rows ==> st.rows[s].connection != t.connection
    ensures var r := CreateSyncs(st, t);
            && Ids(r) && st.next <= r.next && r == st.(rows := r.rows, next := r.next)
            && (forall s :: s in st.rows ==> s in r.rows && r.rows[s] == st.rows[s])
            && (forall s :: s in r.rows && s !in st.rows ==> st.next <= s && r.rows[s].connection == t.connection)
  {
    hide CreateMany;
  }

  lemma CreatedChanges(st: Store, c: ConnectionId)
    requires Ids(st)
    ensures var r := AddSyncChanges(st, c);
            && st.next <= r.next && r == st.(syncChanges := r.syncChanges, next := r.next)
            && EventsKept(st.syncChanges, r.syncChanges)
            && (forall s :: s in st.rows && st.rows[s].connection == c ==> New(r.syncChanges, st.next, s))
  {
    AddedAreNew(st.syncChanges, RowsOf(st.rows, c), st.next);
    hide AddChanges, New, EventsKept;
  }

  lemma SyncsGrown(st: Store, st1: Store, st': Store, t: Task)
    requires st1 == st.(connections := st1.connections, seen := st1.seen) && st.seen <= st1.seen
    requires Ids(st1) && t.config.Some? && t.connection !in st.seen
    requires forall s :: s in st.rows ==> st.rows[s].connection != t.connection
    requires st' == AddSyncChanges(CreateSyncs(st1, t), t.connection)
    ensures RowsAnnounced(st, st') && Grown(st, st')
  {
    CreatedSyncs(st1, t);
    var st2 := CreateSyncs(st1, t);
    hide CreateSyncs, AddSyncChanges;
    CreatedChanges(st2, t.connection);
    NewLater(st'.syncChanges, st.next, st2.next);
    hide Ids, New, RowsAnnounced;
    CreatedRowsAnnounced(st, st', t.connection);
  }

  lemma CreateConnectionGrown(st: Store, c: ConnectionId, customer: Id, provider: Id, config: Option<Id>, paused: bool)
    requires Tables(st) && Enabled(st, CreateConnection(c, customer, provider, config, paused))
    ensures var st' := Apply(st, CreateConnection(c, customer, provider, config, paused)); RowsAnnounced(st, st') && Grown(st, st')
  {
    hide AddChanges, CreateMany, New, UniqueKeys, RowsAnnounced, Grown;
    var st' := Apply(st, CreateConnection(c, customer, provider, config, paused));
    var st1 := WithConnection(st, c, customer, provider);
    assert forall s :: s in st.rows ==> st.rows[s].connection in st.seen;
    hide Tables;
    if config.Some? {
      var t := Task(c, config, ConnectionArgs(st.configs[config.value].data, paused));
      assert Ids(st1) && st' == AddSyncChanges(CreateSyncs(st1, t), c);
      hide Ids, Apply, ConnectionArgs, CreateSyncs, AddSyncChanges, RowsAnnounced, Grown;
      SyncsGrown(st, st1, st', t);
    } else {
      Untouched(st, st', false);
      GrownStore(st, st');
    }
  }

  lemma GrownStore(st: Store, st': Store)
    requires st' == st.(connections := st'.connections, seen := st'.seen) && st.seen <= st'.seen
    ensures Grown(st, st')
  {
  }

  lemma NewLater<T>(changes: map<Id, T>, next: Id, later: Id)
    requires next <= later
    ensures forall t :: New(changes, later, t) ==> New(changes, next, t)
  {
  }

  lemma CreatedMatches(st: Store, st': Store, c: ConnectionId, config: Id, args: seq<SyncArgs>, wanted: seq<SyncArgs>)
    requires forall s :: s in st.rows ==> s < st.next && st.rows[s].connection != c
    requires st'.rows == CreateMany(st.rows, c, config, args, st.next)
    requires forall k :: HasArg(args, k) <==> HasArg(wanted, k)
    ensures Matches(st', c, wanted)
  {
    CreateManyKeys(st.rows, c, config, args, st.next);
    hide CreateMany, HasKey;
    forall s | s in st'.rows && st'.rows[s].connection == c ensures KeptBy(wanted, st'.rows[s].key) {
      assert HasArg(args, st'.rows[s].key);
    }
  }

  /** The new connection has the syncs its config asks for, or has no config. */
  lemma CreateConnectionMatches(st: Store, c: ConnectionId, customer: Id, provider: Id, config: Option<Id>, paused: bool, g: Id)
    requires Tables(st) && Enabled(st, CreateConnection(c, customer, provider, config, paused))
    requires Serves(Apply(st, CreateConnection(c, customer, provider, config, paused)), g, c)
    ensures Matches(Apply(st, CreateConnection(c, customer, provider, config, paused)), c, Desired(st.configs[g].data, None))
  {
    hide CreateMany, AddChanges, UniqueKeys, Matches;
    var st' := Apply(st, CreateConnection(c, customer, provider, config, paused));
    assert config == Some(g) && forall s :: s in st.rows ==> st.rows[s].connection != c;
    hide Tables;
    CreatedMatches(st, st', c, g, ConnectionArgs(st.configs[g].data, paused), Desired(st.configs[g].data, None));
  }

  lemma CreateConnectionAnnounced(st: Store, c: ConnectionId, customer: Id, provider: Id, config: Option<Id>, paused: bool, full: bool)
    requires Tables(st) && Enabled(st, CreateConnection(c, customer, provider, config, paused))
    ensures Announced(st, Apply(st, CreateConnection(c, customer, provider, config, paused)), full)
  {
    var st' := Apply(st, CreateConnection(c, customer, provider, config, paused));
    CreateConnectionGrown(st, c, customer, provider, config, paused);
    hide Connected, Desired, ConnectionArgs, Ids, New, ConfigsAnnounced, RowsAnnounced, SchedulesKept, Tables, Matches, Grown, AddSyncChanges, CreateSyncs;
    Untouched(st, st', full);
    forall g | Serves(st', g, c) ensures Matches(st', c, Desired(st'.configs[g].data, st'.connections[c].override)) {
      CreateConnectionMatches(st, c, customer, provider, config, paused, g);
    }
  }

  // ---- What a write leaves alone

  /** A row that stays is the same, but for the pause and the state of a run. */
  ghost predicate RowLeft(st: Store, st': Store, a: Write, s: Id)
    requires s in st.rows && s in st'.rows
  {
    || st'.rows[s] == st.rows[s]
    || (a.SetPaused? && a.s == s && st'.rows[s] == st.rows[s].(paused := a.paused))
    || (a.SetRunState? && a.s == s && st'.rows[s] == st.rows[s].(state := a.state, performFullRefresh := a.performFullRefresh))
  }

  /** Connections and configs that stay are the same, but for their own list or data. */
  ghost predicate ParentsKept(st: Store, st': Store, a: Write) {
    && (forall c :: c in st.connections && c in st'.connections ==>
          || st'.connections[c] == st.connections[c]
          || (a.SetConnectionSyncConfig? && a.c == c && st'.connections[c] == st.connections[c].(override := a.override)))
    && (forall g :: g in st.configs && g in st'.configs ==>
          || st'.configs[g] == st.configs[g]
          || (a.UpdateConfig? && a.g == g && st'.configs[g] == st.configs[g].(data := a.data)))
  }

  /** Which rows, connections and configs go: those deleted, and the rows under them. */
  ghost predicate GoneWith(st: Store, st': Store, a: Write) {
    && (forall c :: c in st.connections ==>
          (c !in st'.connections <==> (a.DeleteConnection? && a.c == c) || (a.CascadeDelete? && c in a.gone)))
    && (forall g :: g in st.configs ==>
          (g !in st'.configs <==> (a.DeleteConfig? && a.g == g) || (a.CascadeDelete? && g in a.goneConfigs)))
    && (forall s :: s in st.rows ==> var row := st.rows[s];
          (s !in st'.rows <==>
           || (row.connection in st.connections && row.connection !in st'.connections)
           || (row.config in st.configs && row.config !in st'.configs)
           || (a.CascadeDelete? && row.key.EntityKey? && row.key.entityId in a.entities)))
  }

  /** What is new is what the write creates. */
  ghost predicate NewWith(st: Store, st': Store, a: Write) {
    && (forall c :: c in st'.connections && c !in st.connections ==>
          (a.CreateConnection? || a.UpsertConnection?) && c == a.c && st'.connections[c] == Connection(a.customer, a.provider, None))
    && (forall g :: g in st'.configs && g !in st.configs ==> a.CreateConfig? && st'.configs[g] == SyncConfig(a.provider, a.data))
    && (forall s :: s in st'.rows && s !in st.rows ==> a.CreateConnection? && st'.rows[s].connection == a.c)
    && (a.CreateConnection? ==> a.c in st'.connections)
    && (a.UpsertConnection? ==> Connected(st'.connections, a.customer, a.provider))
    && (a.CreateConfig? ==> exists g :: g in st'.configs && g !in st.configs)
  }

  ghost predicate Leaves(st: Store, st': Store, a: Write) {
    && (st'.full <==> st.full || a.RequestFull? || a.Tamper?) && (!a.Tamper? ==> st'.schedules == st.schedules)
    && NewWith(st, st', a)
    && (forall s :: s in st.rows && s in st'.rows ==> RowLeft(st, st', a, s))
    && ParentsKept(st, st', a) && GoneWith(st, st', a)
  }

  lemma CreationLeaves(st: Store, c: ConnectionId, customer: Id, provider: Id, config: Option<Id>, paused: bool)
    requires Ids(st) && Enabled(st, CreateConnection(c, customer, provider, config, paused))
    ensures var a := CreateConnection(c, customer, provider, config, paused); Leaves(st, Apply(st, a), a)
  {
    hide ConnectionArgs, AddChanges, CreateMany, Connected, Desired, DistinctKeys;
  }

  lemma DeletionTakes(st: Store, a: Write)
    requires Ids(st) && Enabled(st, a) && (a.DeleteConnection? || a.DeleteConfig? || a.CascadeDelete?)
    requires forall s :: s in st.rows ==> Serves(st, st.rows[s].config, st.rows[s].connection)
    ensures GoneWith(st, Apply(st, a), a)
  {
    hide AddChanges;
  }

  lemma DeletionLeaves(st: Store, a: Write)
    requires Ids(st) && Enabled(st, a) && (a.DeleteConnection? || a.DeleteConfig? || a.CascadeDelete?)
    requires forall s :: s in st.rows ==> Serves(st, st.rows[s].config, st.rows[s].connection)
    ensures Leaves(st, Apply(st, a), a)
  {
    DeletionTakes(st, a);
    hide AddChanges, GoneWith, Serves, Ids, Cascades, Leaves;
    FewerLeave(st, Apply(st, a), a);
  }

  lemma FewerLeave(st: Store, st': Store, a: Write)
    requires (a.DeleteConnection? || a.DeleteConfig? || a.CascadeDelete?) && GoneWith(st, st', a)
    requires st'.full == st.full && st'.schedules == st.schedules
    requires forall s :: s in st'.rows ==> s in st.rows && st'.rows[s] == st.rows[s]
    requires forall c :: c in st'.connections ==> c in st.connections && st'.connections[c] == st.connections[c]
    requires forall g :: g in st'.configs ==> g in st.configs && st'.configs[g] == st.configs[g]
    ensures Leaves(st, st', a)
  {
    hide GoneWith;
  }

  lemma OnlyRowsLeave(st: Store, st': Store, a: Write)
    requires a.SetPaused? || a.SetRunState? || a.RequestFull? || a.Tamper?
    requires st'.connections == st.connections && st'.configs == st.configs && st'.rows.Keys == st.rows.Keys
    requires forall s :: s in st.rows && s in st'.rows ==> RowLeft(st, st', a, s)
    requires (st'.full <==> st.full || a.RequestFull? || a.Tamper?) && (!a.Tamper? ==> st'.schedules == st.schedules)
    ensures Leaves(st, st', a)
  {
  }

  lemma RowWriteLeaves(st: Store, a: Write)
    requires Ids(st) && Enabled(st, a) && (a.SetPaused? || a.SetRunState? || a.RequestFull? || a.Tamper?)
    ensures Leaves(st, Apply(st, a), a)
  {
    hide Ids, Leaves;
    OnlyRowsLeave(st, Apply(st, a), a);
  }

  lemma ListWriteLeaves(st: Store, c: ConnectionId, override: Option<ConnectionSyncConfig>)
    requires Ids(st) && Enabled(st, SetConnectionSyncConfig(c, override))
    ensures var a := SetConnectionSyncConfig(c, override); Leaves(st, Apply(st, a), a)
  {
    hide Ids;
  }

  lemma WithConnectionLeaves(st: Store, c: ConnectionId, customer: Id, provider: Id, a: Write)
    requires c !in st.connections && a == UpsertConnection(c, customer, provider)
    ensures Leaves(st, WithConnection(st, c, customer, provider), a)
    ensures Connected(st.connections, customer, provider) ==> Leaves(st, st, a)
  {
    var st' := WithConnection(st, c, customer, provider);
    assert c in st'.connections && st'.connections[c] == Connection(customer, provider, None);
  }

  lemma UpsertLeaves(st: Store, c: ConnectionId, customer: Id, provider: Id)
    requires Ids(st) && Enabled(st, UpsertConnection(c, customer, provider))
    ensures var a := UpsertConnection(c, customer, provider); Leaves(st, Apply(st, a), a)
  {
    assert c !in st.connections;
    hide Ids, Connected, Leaves, WithConnection;
    WithConnectionLeaves(st, c, customer, provider, UpsertConnection(c, customer, provider));
  }

  lemma ConfigWriteLeaves(st: Store, a: Write)
    requires Ids(st) && Enabled(st, a) && (a.CreateConfig? || a.UpdateConfig?)
    ensures Leaves(st, Apply(st, a), a)
  {
    var st' := Apply(st, a);
    assert st'.rows == st.rows && st'.connections == st.connections && st.configs.Keys <= st'.configs.Keys;
    assert ParentsKept(st, st', a);
    assert a.CreateConfig? ==> st.next in st'.configs && st.next !in st.configs;
    assert NewWith(st, st', a);
    hide Ids, Apply, Enabled, ParentsKept, NewWith;
  }

  /** A write changes what it names: rows, connections and configs that stay are otherwise
      the same, only what it deletes goes, with the rows under it, and a full pass is
      requested only by asking for one. */
  lemma WriteLeaves(st: Store, a: Write)
    requires Tables(st) && Enabled(st, a)
    ensures Leaves(st, Apply(st, a), a)
  {
    assert Ids(st) && forall s :: s in st.rows ==> Serves(st, st.rows[s].config, st.rows[s].connection);
    hide Tables, Ids, Apply, Enabled, Leaves, Serves;
    match a {
      case CreateConnection(c, customer, provider, config, paused) => CreationLeaves(st, c, customer, provider, config, paused);
      case DeleteConnection(_) => DeletionLeaves(st, a);
      case DeleteConfig(_) => DeletionLeaves(st, a);
      case CascadeDelete(_, _, _) => DeletionLeaves(st, a);
      case SetPaused(_, _) => RowWriteLeaves(st, a);
      case SetRunState(_, _, _) => RowWriteLeaves(st, a);
      case RequestFull => RowWriteLeaves(st, a);
      case Tamper(_, _) => RowWriteLeaves(st, a);
      case CreateConfig(_, _) => ConfigWriteLeaves(st, a);
      case UpdateConfig(_, _) => ConfigWriteLeaves(st, a);
      case SetConnectionSyncConfig(c, override) => ListWriteLeaves(st, c, override);
      case UpsertConnection(c, customer, provider) => UpsertLeaves(st, c, customer, provider);
    }
  }

  lemma CreationKeepsStrategies(st: Store, c: ConnectionId, customer: Id, provider: Id, config: Option<Id>, paused: bool)
    requires Ids(st) && Enabled(st, CreateConnection(c, customer, provider, config, paused))
    ensures StrategiesKept(st, Apply(st, CreateConnection(c, customer, provider, config, paused)))
  {
    hide ConnectionArgs, AddChanges, CreateMany, Connected, Desired;
  }

  lemma WriteKeepsStrategies(st: Store, a: Write)
    requires Ids(st) && Enabled(st, a)
    ensures StrategiesKept(st, Apply(st, a))
  {
    if a.CreateConnection? {
      hide *;
      CreationKeepsStrategies(st, a.c, a.customer, a.provider, a.config, a.paused);
    } else {
      hide AddChanges, Ids, Cascades;
    }
  }

  /** The invariant survives every write that records its event, at every point of
      the worker; a change made by hand, outside full passes. */
  lemma WriteKeepsInv(st: Store, w: Worker, a: Write)
    requires Inv(st, w) && Enabled(st, a) && !a.CascadeDelete? && !a.UpsertConnection? && (a.Tamper? ==> !IsFull(w))
    ensures Inv(Apply(st, a), w)
  {
    hide Fresh, Backed, Covered, NoOrphans, Matched, Offsets, UniqueKeys, Announced, Apply, Stored, StrategiesKept;
    var full := IsFull(w);
    match a {
      case CreateConnection(c, customer, provider, config, paused) =>
        CreateConnectionTables(st, c, customer, provider, config, paused);
        CreateConnectionAnnounced(st, c, customer, provider, config, paused, full);
      case DeleteConnection(c) => DeleteConnectionTables(st, c); DeleteConnectionAnnounced(st, c, full);
      case SetConnectionSyncConfig(c, override) => ParentWriteTables(st, a); SetConnectionSyncConfigAnnounced(st, c, override, full);
      case CreateConfig(provider, data) => ParentWriteTables(st, a); CreateConfigAnnounced(st, provider, data, full);
      case UpdateConfig(g, data) => ParentWriteTables(st, a); UpdateConfigAnnounced(st, g, data, full);
      case DeleteConfig(g) => DeleteConfigTables(st, g); DeleteConfigAnnounced(st, g, full);
      case SetPaused(s, paused) => RowWriteTables(st, a); SetPausedAnnounced(st, s, paused, full);
      case SetRunState(s, state, force) => RowWriteTables(st, a); SetRunStateAnnounced(st, s, state, force, full);
      case RequestFull => FlagTables(st, a); FlagAnnounced(st, a, full);
      case Tamper(_, _) => FlagTables(st, a); FlagAnnounced(st, a, full);
    }
    WriteKeepsStrategies(st, a);
    hide Tables, StrategiesKept, Stored;
    AnnouncedKeepsInv(st, Apply(st, a), w);
  }
}
