/** The outbox invariant, and its proof for the worker's queries and for stopping
    the worker anywhere. */
module OutboxInvariant {
  import opened StringHash
  import opened SyncTypes
  import opened Reconcile
  import opened Outbox

  /** A change event for t that is not among the captured ones. */
  ghost predicate Pending<T>(changes: map<Id, T>, captured: set<Id>, t: T) {
    exists e :: e in changes && e !in captured && changes[e] == t
  }

  // The events the worker has captured and will delete at the end of the part.

  function CapturedConnectionChanges(w: Worker): set<Id> {
    match w
    case ReadConnections(_, ids, _) => ids
    case ReadConfigs(_, ids, _) => ids
    case Reconciling(_, ids, One, _, _) => ids
    case _ => {}
  }

  function CapturedConfigChanges(w: Worker): set<Id> {
    match w
    case ReadTouchedConfigs(_, ids, _) => ids
    case Reconciling(_, ids, Two(_, _), _, _) => ids
    case _ => {}
  }

  function CapturedSyncChanges(w: Worker): set<Id> {
    match w
    case ReadRows(_, ids, _) => ids
    case ReadRowConnections(_, ids, _, _) => ids
    case ReadRowConfigs(_, ids, _, _, _) => ids
    case Pausing(_, ids, _, _, _) => ids
    case Deleting(_, ids, _, _) => ids
    case Upserting(_, ids, _, _) => ids
    case Scheduling(_, ids, _, _) => ids
    case _ => {}
  }

  ghost predicate ConnectionPending(st: Store, w: Worker, c: ConnectionId) {
    Pending(st.connectionChanges, CapturedConnectionChanges(w), c)
  }

  ghost predicate ConfigPending(st: Store, w: Worker, g: Id) {
    Pending(st.configChanges, CapturedConfigChanges(w), g)
  }

  ghost predicate SyncPending(st: Store, w: Worker, s: Id) {
    Pending(st.syncChanges, CapturedSyncChanges(w), s)
  }

  // What the worker will still do if it is not interrupted.

  /** It will record a change for the row, or upsert its schedule; a full pass will
      upsert the schedule of every row it finds in part three. */
  ghost predicate RowDue(w: Worker, s: Id, row: SyncRow) {
    match w
    case Idle => false
    case Begin(full) => full
    case ReadConnections(full, _, touched) => full || row.connection in touched
    case ReadConfigs(full, _, connections) => full || row.connection in connections
    case Reconciling(full, _, part, todo, stage) =>
      || full
      || (todo != [] && (Listed(todo[1..], row.connection) || (stage != Delete && todo[0].connection == row.connection)))
      || (part.Two? && row.config in part.rest)
    case BeginTwo(full) => full
    case ReadTouchedConfigs(full, _, touched) => full || row.config in touched
    case BeginThree(full) => full
    case ReadRows(full, _, touched) => full || s in touched
    case ReadRowConnections(_, _, _, rows) => s in rows
    case ReadRowConfigs(_, _, _, rows, _) => s in rows
    case Pausing(_, _, plan, _, _) => s in plan.rows
    case Deleting(_, _, plan, _) => s in plan.rows
    case Upserting(_, _, _, left) => s in left
    case Scheduling(_, _, _, left) => s in left
    case ClearFlag => false
  }

  /** It will delete the schedule of a sync that is gone. */
  ghost predicate DeletionDue(w: Worker, s: Id) {
    match w
    case ReadRows(_, _, touched) => s in touched
    case ReadRowConnections(_, _, touched, rows) => s in touched && s !in rows
    case ReadRowConfigs(_, _, touched, rows, _) => s in touched && s !in rows
    case Pausing(_, _, _, gone, _) => s in gone
    case Deleting(_, _, _, left) => s in left
    case _ => false
  }

  /** It will bring the rows of the connection in line with the config. */
  ghost predicate MatchDue(w: Worker, c: ConnectionId, g: Id) {
    match w
    case Begin(full) => full
    case ReadConnections(full, _, touched) => full || c in touched
    case ReadConfigs(_, _, connections) => c in connections
    case Reconciling(_, _, part, todo, _) => Listed(todo, c) || (part.Two? && g in part.rest)
    case ReadTouchedConfigs(_, _, touched) => g in touched
    case _ => false
  }

  ghost predicate ConfigDue(w: Worker, g: Id) {
    (w.ReadTouchedConfigs? && g in w.touchedConfigs) || (w.Reconciling? && w.part.Two? && g in w.part.rest)
  }

  // ---- The invariant

  ghost predicate Serves(st: Store, g: Id, c: ConnectionId) {
    g in st.configs && c in st.connections && st.configs[g].provider == st.connections[c].provider
  }

  /** Foreign keys and unique indexes. */
  ghost predicate Tables(st: Store) {
    && Ids(st)
    && (forall s :: s in st.rows ==> Serves(st, st.rows[s].config, st.rows[s].connection))
    && (forall g, h :: g in st.configs && h in st.configs && st.configs[g].provider == st.configs[h].provider ==> g == h)
    && UniqueKeys(st.rows)
  }

  /** Every schedule has the offset its connection and period determine. */
  ghost predicate Offsets(st: Store) {
    && (forall s :: s in st.schedules ==> st.schedules[s].offset == StringToNumber(st.schedules[s].connection, st.schedules[s].every))
    && (forall s :: s in st.schedules && s in st.rows ==> st.schedules[s].connection == st.rows[s].connection)
  }

  /** The schedule agrees with the row, and both with the config: same paused flag, the
      configured period, and in the row the configured strategy. */
  ghost predicate Agrees(st: Store, s: Id)
    requires s in st.rows
  {
    && s in st.schedules
    && st.schedules[s].paused == st.rows[s].paused
    && st.rows[s].config in st.configs
    && st.schedules[s].every == PeriodOf(st.configs[st.rows[s].config].data, st.rows[s].key)
    && st.rows[s].strategy == StrategyOf(st.configs[st.rows[s].config].data, st.rows[s].key)
  }

  ghost predicate RowCovered(st: Store, w: Worker, s: Id)
    requires s in st.rows
  {
    || Agrees(st, s)
    || SyncPending(st, w, s)
    || ConfigPending(st, w, st.rows[s].config)
    || ConnectionPending(st, w, st.rows[s].connection)
    || RowDue(w, s, st.rows[s])
    || (st.full && !IsFull(w))
  }

  ghost predicate Covered(st: Store, w: Worker) {
    forall s :: s in st.rows ==> RowCovered(st, w, s)
  }

  ghost predicate NoOrphans(st: Store, w: Worker) {
    forall s :: s in st.schedules && s !in st.rows ==> SyncPending(st, w, s) || DeletionDue(w, s)
  }

  /** The connection has the syncs its configuration asks for (any entity sync
      counts as wanted when some entity is). */
  ghost predicate Matches(st: Store, c: ConnectionId, args: seq<SyncArgs>) {
    && (forall k :: HasArg(args, k) ==> HasKey(st.rows, c, k))
    && (forall s :: s in st.rows && st.rows[s].connection == c ==> KeptBy(args, st.rows[s].key))
  }

  ghost predicate Matched(st: Store, w: Worker) {
    forall c, g :: Serves(st, g, c) ==>
      || Matches(st, c, Desired(st.configs[g].data, st.connections[c].override))
      || ConnectionPending(st, w, c)
      || ConfigPending(st, w, g)
      || MatchDue(w, c, g)
      || (st.full && !IsFull(w))
  }

  /** Whatever the worker owes is still backed by an event, or by the flag, so
      that nothing is lost if it stops now. */
  ghost predicate Backed(st: Store, w: Worker) {
    && (IsFull(w) ==> st.full)
    && (!IsFull(w) ==>
          && (forall s :: s in st.rows && RowDue(w, s, st.rows[s]) ==> AnyEvent(st, s))
          && (forall c, g :: Serves(st, g, c) && MatchDue(w, c, g) ==>
                Pending(st.connectionChanges, {}, c) || Pending(st.configChanges, {}, g))
          && (w.ReadConnections? ==> forall c :: c in w.touchedConnections ==> Pending(st.connectionChanges, {}, c))
          && (forall g :: ConfigDue(w, g) ==> Pending(st.configChanges, {}, g)))
    && (forall s :: s in st.schedules && DeletionDue(w, s) ==> Pending(st.syncChanges, {}, s))
  }

  ghost predicate AnyEvent(st: Store, s: Id)
    requires s in st.rows
  {
    || Pending(st.syncChanges, {}, s)
    || Pending(st.configChanges, {}, st.rows[s].config)
    || Pending(st.connectionChanges, {}, st.rows[s].connection)
  }

  // What the worker has read is current, or a later event says it is not.

  ghost predicate TaskFresh(st: Store, w: Worker, t: Task) {
    && t.connection in st.seen
    && (t.config.Some? ==> t.config.value < st.next)
    && (t.config.Some? && t.config.value in st.configs && t.connection in st.connections ==>
          st.configs[t.config.value].provider == st.connections[t.connection].provider)
    && (forall g :: Serves(st, g, t.connection) ==>
          || (t.config == Some(g) && t.args == Desired(st.configs[g].data, st.connections[t.connection].override))
          || ConnectionPending(st, w, t.connection) || ConfigPending(st, w, g))
  }

  ghost predicate ConfigFresh(st: Store, w: Worker, g: Id, config: SyncConfig) {
    && g < st.next
    && (g in st.configs ==>
          st.configs[g].provider == config.provider && (st.configs[g].data == config.data || ConfigPending(st, w, g)))
    && (g !in st.configs ==> forall h :: h in st.configs && st.configs[h].provider == config.provider ==> ConfigPending(st, w, h))
  }

  /** The syncs the first task asks for are there. */
  ghost predicate HeadCreated(st: Store, w: Worker, t: Task) {
    forall g :: Serves(st, g, t.connection) ==>
      || (forall k :: HasArg(t.args, k) ==> HasKey(st.rows, t.connection, k))
      || ConnectionPending(st, w, t.connection) || ConfigPending(st, w, g)
  }

  /** All syncs of the first task's connection have a change event. */
  ghost predicate HeadChanged(st: Store, t: Task) {
    forall s :: s in st.rows && st.rows[s].connection == t.connection ==> Pending(st.syncChanges, {}, s)
  }

  ghost predicate RowFresh(st: Store, ids: set<Id>, s: Id, row: SyncRow) {
    && s < st.next
    && (s in st.schedules ==> st.schedules[s].connection == row.connection)
    && (s !in st.rows ==> Pending(st.syncChanges, ids, s))
    && (s in st.rows ==>
          && st.rows[s].connection == row.connection && st.rows[s].config == row.config && st.rows[s].key == row.key
          && (st.rows[s].paused == row.paused || Pending(st.syncChanges, ids, s)))
  }

  ghost predicate PlanFresh(st: Store, w: Worker, ids: set<Id>, plan: Plan) {
    && (forall s :: s in plan.rows ==> RowFresh(st, ids, s, plan.rows[s]))
    && (forall g :: g in plan.configs ==> ConfigFresh(st, w, g, plan.configs[g]))
  }

  ghost predicate Gone(st: Store, s: Id) {
    s < st.next && s !in st.rows
  }

  ghost predicate CapturedOld(st: Store, w: Worker) {
    && Below(CapturedConnectionChanges(w), st.next)
    && Below(CapturedConfigChanges(w), st.next)
    && Below(CapturedSyncChanges(w), st.next)
  }

  ghost predicate Below(ids: set<Id>, next: Id) {
    forall e :: e in ids ==> e < next
  }

  ghost predicate Fresh(st: Store, w: Worker) {
    && CapturedOld(st, w)
    && match w {
      case ReadConfigs(_, ids, connections) =>
        forall c :: c in connections ==>
          && c in st.seen
          && (c in st.connections ==>
                && st.connections[c].provider == connections[c].provider
                && (st.connections[c].override == connections[c].override || ConnectionPending(st, w, c)))
      case Reconciling(_, ids, part, todo, stage) =>
        && (forall t :: t in todo ==> TaskFresh(st, w, t))
        && (todo != [] && stage != Create ==> HeadCreated(st, w, todo[0]))
        && (todo != [] && stage == Delete ==> HeadChanged(st, todo[0]))
        && (part.Two? ==> forall g :: g in part.rest ==> g in part.configs && ConfigFresh(st, w, g, part.configs[g]))
      case ReadRows(_, _, touched) => forall s :: s in touched ==> s < st.next
      case ReadRowConnections(_, ids, touched, rows) =>
        && (forall s :: s in rows ==> RowFresh(st, ids, s, rows[s]))
        && (forall s :: s in touched && s !in rows ==> Gone(st, s))
      case ReadRowConfigs(_, ids, touched, rows, _) =>
        && (forall s :: s in rows ==> RowFresh(st, ids, s, rows[s]))
        && (forall s :: s in touched && s !in rows ==> Gone(st, s))
      case Pausing(_, ids, plan, gone, left) =>
        && PlanFresh(st, w, ids, plan) && (forall s :: s in gone ==> Gone(st, s)) && (forall s :: s in left ==> s in gone)
      case Deleting(_, ids, plan, left) =>
        PlanFresh(st, w, ids, plan) && forall s :: s in left ==> Gone(st, s)
      case Upserting(_, ids, plan, left) =>
        PlanFresh(st, w, ids, plan) && forall s :: s in left ==> s in plan.rows
      case Scheduling(_, ids, plan, left) =>
        PlanFresh(st, w, ids, plan) && left != [] && forall s :: s in left ==> s in plan.rows
      case _ => true
    }
  }

  /** The row whose schedule comes next has the strategy of the config read. */
  ghost predicate Stored(st: Store, w: Worker) {
    w.Scheduling? && w.left != [] && w.left[0] in st.rows && w.left[0] in w.plan.rows && w.plan.rows[w.left[0]].config in w.plan.configs ==>
      st.rows[w.left[0]].strategy == StrategyOf(w.plan.configs[w.plan.rows[w.left[0]].config].data, w.plan.rows[w.left[0]].key)
  }

  ghost predicate Inv(st: Store, w: Worker) {
    && Tables(st) && Offsets(st)
    && Fresh(st, w) && Backed(st, w)
    && Covered(st, w) && NoOrphans(st, w) && Matched(st, w)
    && Stored(st, w)
  }

  // ---- Stopping the worker anywhere

  lemma StopCovered(st: Store, w: Worker)
    requires Backed(st, w) && Covered(st, w)
    ensures Covered(st, Idle)
  {
    forall s | s in st.rows ensures RowCovered(st, Idle, s) {
      assert RowCovered(st, w, s);
    }
  }

  lemma StopNoOrphans(st: Store, w: Worker)
    requires Backed(st, w) && NoOrphans(st, w)
    ensures NoOrphans(st, Idle)
  {
  }

  lemma StopMatched(st: Store, w: Worker)
    requires Backed(st, w) && Matched(st, w)
    ensures Matched(st, Idle)
  {
  }

  lemma StopReads(st: Store, w: Worker)
    ensures Fresh(st, Idle) && Backed(st, Idle)
  {
  }

  lemma StopKeepsInv(st: Store, w: Worker)
    requires Inv(st, w)
    ensures Inv(st, Idle)
  {
    StopReads(st, w);
    hide Fresh, Backed, Covered, NoOrphans, Matched, Tables, Offsets;
    StopCovered(st, w);
    StopNoOrphans(st, w);
    StopMatched(st, w);
  }

  // ---- The worker's queries

  lemma QueryOneCovered(st: Store, w: Worker, w': Worker)
    requires Tables(st) && Covered(st, w) && QueryOne(st, w, w')
    ensures Covered(st, w')
  {
    hide UniqueKeys, Ids, Agrees;
    forall s | s in st.rows ensures RowCovered(st, w', s) {
      assert RowCovered(st, w, s);
    }
  }

  lemma QueryOneOthers(st: Store, w: Worker, w': Worker)
    requires NoOrphans(st, w) && Matched(st, w) && QueryOne(st, w, w')
    ensures NoOrphans(st, w') && Matched(st, w')
  {
  }

  lemma QueryOneFresh(st: Store, w: Worker, w': Worker)
    requires Tables(st) && Fresh(st, w) && QueryOne(st, w, w')
    ensures Fresh(st, w')
  {
    hide UniqueKeys;
  }

  lemma QueryOneBacked(st: Store, w: Worker, w': Worker)
    requires Backed(st, w) && QueryOne(st, w, w')
    ensures Backed(st, w')
  {
  }

  lemma QueryTwoCovered(st: Store, w: Worker, w': Worker)
    requires Tables(st) && Fresh(st, w) && Covered(st, w) && QueryTwo(st, w, w')
    ensures Covered(st, w')
  {
    hide UniqueKeys, Agrees, TaskFresh, HeadCreated, HeadChanged, Ids;
    forall s | s in st.rows ensures RowCovered(st, w', s) {
      assert RowCovered(st, w, s);
    }
  }

  lemma QueryTwoOthers(st: Store, w: Worker, w': Worker)
    requires Fresh(st, w) && NoOrphans(st, w) && Matched(st, w) && QueryTwo(st, w, w')
    ensures NoOrphans(st, w') && Matched(st, w')
  {
  }

  lemma QueryTwoFresh(st: Store, w: Worker, w': Worker)
    requires Tables(st) && Fresh(st, w) && QueryTwo(st, w, w')
    ensures Fresh(st, w')
  {
    hide UniqueKeys;
  }

  lemma QueryTwoBacked(st: Store, w: Worker, w': Worker)
    requires Tables(st) && Fresh(st, w) && Backed(st, w) && QueryTwo(st, w, w')
    ensures Backed(st, w')
  {
    hide UniqueKeys;
    if !IsFull(w') && w.Reconciling? {
      QueryTwoConfigBacked(st, w, w');
    }
  }

  /** Whatever config the provider has now is recorded as changed. */
  lemma ConfigOfProviderPending(st: Store, w: Worker)
    requires Tables(st) && Fresh(st, w) && Backed(st, w) && !IsFull(w)
    requires w.Reconciling? && w.part.Two? && w.part.rest != []
    ensures w.part.rest[0] in w.part.configs
    ensures forall c, h :: Serves(st, h, c) && st.connections[c].provider == w.part.configs[w.part.rest[0]].provider ==>
              Pending(st.configChanges, {}, h)
  {
    var g := w.part.rest[0];
    assert ConfigDue(w, g) && ConfigFresh(st, w, g, w.part.configs[g]);
    hide Fresh, UniqueKeys, Ids, RowDue, MatchDue, DeletionDue;
  }

  lemma QueryTwoConfigBacked(st: Store, w: Worker, w': Worker)
    requires Tables(st) && Fresh(st, w) && Backed(st, w) && QueryTwo(st, w, w') && w.Reconciling? && !IsFull(w)
    ensures Backed(st, w')
  {
    ConfigOfProviderPending(st, w);
    hide Fresh, UniqueKeys, Ids, Pending;
    forall s | s in st.rows && RowDue(w', s, st.rows[s]) ensures AnyEvent(st, s) {
    }
  }

  lemma QueryThreeCovered(st: Store, w: Worker, w': Worker)
    requires Covered(st, w) && QueryThree(st, w, w')
    ensures Covered(st, w')
  {
    hide Agrees;
    forall s | s in st.rows ensures RowCovered(st, w', s) {
      assert RowCovered(st, w, s);
    }
  }

  lemma QueryThreeOthers(st: Store, w: Worker, w': Worker)
    requires NoOrphans(st, w) && Matched(st, w) && QueryThree(st, w, w')
    ensures NoOrphans(st, w') && Matched(st, w')
  {
    hide Matches, Desired;
  }

  lemma RowsAreFresh(st: Store, ids: set<Id>)
    requires Tables(st) && Offsets(st)
    ensures forall s :: s in st.rows ==> RowFresh(st, ids, s, st.rows[s])
  {
    hide UniqueKeys, Pending;
  }

  lemma ConfigsAreFresh(st: Store, w: Worker)
    requires Tables(st)
    ensures forall g :: g in st.configs ==> ConfigFresh(st, w, g, st.configs[g])
  {
    hide UniqueKeys, Pending;
  }

  lemma ConfigStaysFresh(st: Store, w: Worker, w': Worker, g: Id, config: SyncConfig)
    requires ConfigFresh(st, w, g, config) && CapturedConfigChanges(w) == CapturedConfigChanges(w')
    ensures ConfigFresh(st, w', g, config)
  {
    hide Pending, CapturedConfigChanges;
  }

  lemma PlanStaysFresh(st: Store, w: Worker, w': Worker, ids: set<Id>, plan: Plan)
    requires PlanFresh(st, w, ids, plan) && CapturedConfigChanges(w) == CapturedConfigChanges(w')
    ensures PlanFresh(st, w', ids, plan)
  {
    hide RowFresh, ConfigFresh, CapturedConfigChanges;
    forall g | g in plan.configs ensures ConfigFresh(st, w', g, plan.configs[g]) {
      ConfigStaysFresh(st, w, w', g, plan.configs[g]);
    }
  }

  lemma ReadingStaysFresh(st: Store, w: Worker, w': Worker)
    requires Tables(st) && Offsets(st) && Fresh(st, w) && QueryThree(st, w, w') && !w.Pausing? && !w.Deleting?
    ensures Fresh(st, w')
  {
    RowsAreFresh(st, w'.ids);
    ConfigsAreFresh(st, w');
    hide UniqueKeys, Offsets, ConfigFresh, RowFresh;
  }

  lemma QueryThreeFresh(st: Store, w: Worker, w': Worker)
    requires Tables(st) && Offsets(st) && Fresh(st, w) && QueryThree(st, w, w')
    ensures Fresh(st, w')
  {
    if w.Pausing? || w.Deleting? {
      hide UniqueKeys, Offsets, Tables, ConfigFresh, RowFresh, PlanFresh;
      PlanStaysFresh(st, w, w', w.ids, w.plan);
    } else {
      hide *;
      ReadingStaysFresh(st, w, w');
    }
  }

  lemma QueryThreeBacked(st: Store, w: Worker, w': Worker)
    requires Backed(st, w) && QueryThree(st, w, w')
    ensures Backed(st, w')
  {
    assert w.BeginThree? ==> forall s :: s in st.syncChanges.Values ==> Pending(st.syncChanges, {}, s);
    hide Pending;
  }
}
