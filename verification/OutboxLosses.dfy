/** What unsafe writes lose: runs from an empty installation in which a sync is
    forgotten, and that a schedule left behind by a cascading deletion stays for good. */
module OutboxLosses {
  import opened StringHash
  import opened SyncTypes
  import opened Reconcile
  import opened Outbox
  import opened OutboxInvariant
  import opened OutboxWriters
  import opened OutboxWorker
  import opened OutboxSafeWrites
  import opened OutboxTheorems

  // ---- Schedules left behind

  /** The worker does not know of s. */
  predicate Ignored(w: Worker, s: Id) {
    match w
    case ReadRows(_, _, touched) => s !in touched
    case ReadRowConnections(_, _, touched, _) => s !in touched
    case ReadRowConfigs(_, _, touched, _, _) => s !in touched
    case Pausing(_, _, _, gone, left) => s !in gone && s !in left
    case Deleting(_, _, _, left) => s !in left
    case _ => true
  }

  /** A schedule whose row is gone, and no event says so. */
  ghost predicate Orphan(st: Store, w: Worker, s: Id) {
    s < st.next && s !in st.rows && s in st.schedules && s !in st.syncChanges.Values && Ignored(w, s)
  }

  /** No row, no schedule deletion and no event for an old id that has no row. */
  ghost predicate LeftAlone(st: Store, st': Store, s: Id) {
    && st.next <= st'.next
    && (s < st.next && s !in st.rows ==>
          && s !in st'.rows && (s in st.schedules ==> s in st'.schedules)
          && (s in st'.syncChanges.Values ==> s in st.syncChanges.Values))
  }

  lemma EventsFor(changes: map<Id, Id>, ids: set<Id>, next: Id, s: Id)
    requires forall t :: t in ids ==> t < next
    requires forall e :: e in changes ==> e < next
    requires s !in ids
    ensures s in AddChanges(changes, ids, next).Values ==> s in changes.Values
  {
    var r := AddChanges(changes, ids, next);
    if s in r.Values {
      var e :| e in r && r[e] == s;
      assert e in changes;
    }
  }

  lemma EventAdded(changes: map<Id, Id>, e: Id, t: Id, s: Id)
    requires s != t && e !in changes
    ensures s in changes[e := t].Values ==> s in changes.Values
  {
  }

  lemma PausingLeavesAlone(st: Store, t: Id, paused: bool, s: Id)
    requires Ids(st) && Enabled(st, SetPaused(t, paused))
    ensures LeftAlone(st, Apply(st, SetPaused(t, paused)), s)
  {
    assert st.next !in st.syncChanges;
    if s != t {
      EventAdded(st.syncChanges, st.next, t, s);
    }
  }

  lemma ParentsLeaveAlone(st: Store, a: Write, s: Id)
    requires Ids(st) && Enabled(st, a) && (a.UpsertConnection? || a.CascadeDelete?)
    ensures LeftAlone(st, Apply(st, a), s)
  {
    hide Ids, Cascades, Connected;
  }

  lemma WriteLeavesAlone(st: Store, a: Write, s: Id)
    requires Ids(st) && Enabled(st, a) && !a.CreateConnection? && !a.DeleteConnection? && !a.DeleteConfig?
    ensures LeftAlone(st, Apply(st, a), s)
  {
    match a {
      case SetPaused(t, paused) => hide *; PausingLeavesAlone(st, t, paused, s);
      case UpsertConnection(_, _, _) => hide *; ParentsLeaveAlone(st, a, s);
      case CascadeDelete(_, _, _) => hide *; ParentsLeaveAlone(st, a, s);
      case _ => hide Ids;
    }
  }

  lemma DeleteLeavesAlone(st: Store, a: Write, s: Id)
    requires Ids(st) && Enabled(st, a) && (a.DeleteConnection? || a.DeleteConfig?)
    ensures LeftAlone(st, Apply(st, a), s)
  {
    if s !in st.rows {
      EventsFor(st.syncChanges, if a.DeleteConnection? then RowsOf(st.rows, a.c) else RowsOfConfig(st.rows, a.g), st.next, s);
    }
    hide AddChanges;
  }

  lemma InsertLeavesAlone(st: Store, t: Task, s: Id)
    requires Ids(st) && t.config.Some?
    ensures LeftAlone(st, CreateSyncs(st, t), s)
  {
    hide CreateMany, HasArg;
  }

  lemma RecordLeavesAlone(st: Store, c: ConnectionId, s: Id)
    requires Ids(st)
    ensures LeftAlone(st, AddSyncChanges(st, c), s)
  {
    if s !in st.rows {
      EventsFor(st.syncChanges, RowsOf(st.rows, c), st.next, s);
    }
    hide AddChanges;
  }

  lemma RemoveLeavesAlone(st: Store, t: Task, s: Id)
    ensures LeftAlone(st, DeleteSyncs(st, t), s)
  {
    hide KeptBy;
  }

  lemma ConnectionLeavesAlone(st: Store, c: ConnectionId, customer: Id, provider: Id, s: Id)
    requires Ids(st)
    ensures LeftAlone(st, WithConnection(st, c, customer, provider), s)
  {
    hide Ids;
  }

  lemma CreateUnderConfig(st: Store, c: ConnectionId, customer: Id, provider: Id, g: Id, paused: bool, s: Id)
    requires Ids(st) && Enabled(st, CreateConnection(c, customer, provider, Some(g), paused))
    ensures LeftAlone(st, Apply(st, CreateConnection(c, customer, provider, Some(g), paused)), s)
  {
    assert g in st.configs;
    var st1, t := WithConnection(st, c, customer, provider), Task(c, Some(g), ConnectionArgs(st.configs[g].data, paused));
    hide *;
    CreatedInSteps(st, c, customer, provider, g, paused);
    ConnectionLeavesAlone(st, c, customer, provider, s);
    InsertLeavesAlone(st1, t, s);
    RecordLeavesAlone(CreateSyncs(st1, t), c, s);
    LeftAloneTwice(st, st1, CreateSyncs(st1, t), s);
    LeftAloneTwice(st, CreateSyncs(st1, t), AddSyncChanges(CreateSyncs(st1, t), c), s);
  }

  lemma CreateLeavesAlone(st: Store, a: Write, s: Id)
    requires Ids(st) && Enabled(st, a) && a.CreateConnection?
    ensures LeftAlone(st, Apply(st, a), s)
  {
    if a.config.Some? {
      hide *;
      CreateUnderConfig(st, a.c, a.customer, a.provider, a.config.value, a.paused, s);
    } else {
      ConnectionLeavesAlone(st, a.c, a.customer, a.provider, s);
      hide Ids, LeftAlone, WithConnection, Connected;
    }
  }

  lemma LeftAloneTwice(a: Store, b: Store, c: Store, s: Id)
    requires LeftAlone(a, b, s) && LeftAlone(b, c, s)
    ensures LeftAlone(a, c, s)
  {
  }

  lemma WriteSyncsLeavesAlone(st: Store, w: Worker, st': Store, w': Worker, s: Id)
    requires Ids(st) && WriteSyncs(st, w, st', w')
    ensures LeftAlone(st, st', s) && Ignored(w', s)
  {
    hide CreateSyncs, AddSyncChanges, DeleteSyncs, LeftAlone, CanCreate;
    match w.stage {
      case Create => InsertLeavesAlone(st, w.todo[0], s);
      case Change => RecordLeavesAlone(st, w.todo[0].connection, s);
      case Delete => RemoveLeavesAlone(st, w.todo[0], s);
    }
  }

  lemma WriteSchedulesKeepsOrphan(st: Store, w: Worker, st': Store, w': Worker, s: Id)
    requires WriteSchedules(st, w, st', w') && Orphan(st, w, s)
    ensures Orphan(st', w', s)
  {
    hide StrategyOf, PeriodOf;
    assert w.left[0] in w.left && forall t :: t in w.left[1..] ==> t in w.left;
  }

  lemma FinishKeepsOrphan(st: Store, w: Worker, st': Store, w': Worker, s: Id)
    requires FinishPart(st, w, st', w') && Orphan(st, w, s)
    ensures Orphan(st', w', s)
  {
    assert forall ids :: s in (st.syncChanges - ids).Values ==> s in st.syncChanges.Values;
  }

  lemma QueryKeepsOrphan(st: Store, w: Worker, w': Worker, s: Id)
    requires (QueryOne(st, w, w') || QueryTwo(st, w, w') || QueryThree(st, w, w')) && Orphan(st, w, s)
    ensures Orphan(st, w', s)
  {
    hide TasksOfConnections, TasksOfConfig;
  }

  lemma WorkerKeepsOrphan(st: Store, w: Worker, st': Store, w': Worker, s: Id)
    requires Ids(st) && WorkerStep(st, w, st', w') && Orphan(st, w, s)
    ensures Orphan(st', w', s)
  {
    hide QueryOne, QueryTwo, QueryThree, WriteSyncs, WriteSchedules, FinishPart, Ids;
    if WriteSyncs(st, w, st', w') {
      WriteSyncsLeavesAlone(st, w, st', w', s);
    } else {
      hide Orphan;
      if WriteSchedules(st, w, st', w') {
        WriteSchedulesKeepsOrphan(st, w, st', w', s);
      } else if FinishPart(st, w, st', w') {
        FinishKeepsOrphan(st, w, st', w', s);
      } else {
        QueryKeepsOrphan(st, w, w', s);
      }
    }
  }

  lemma WriteKeepsOrphan(st: Store, w: Worker, a: Write, s: Id)
    requires Ids(st) && Enabled(st, a) && Orphan(st, w, s)
    ensures Orphan(Apply(st, a), w, s)
  {
    hide Enabled, Apply, Ids, Ignored;
    if a.CreateConnection? {
      CreateLeavesAlone(st, a, s);
    } else if a.DeleteConnection? || a.DeleteConfig? {
      DeleteLeavesAlone(st, a, s);
    } else {
      WriteLeavesAlone(st, a, s);
    }
  }

  lemma NextKeepsOrphan(st: Store, w: Worker, st': Store, w': Worker, s: Id)
    requires Ids(st) && Next(st, w, st', w') && Orphan(st, w, s)
    ensures Orphan(st', w', s)
  {
    hide WorkerStep, Enabled, Apply, Ids;
    if WorkerStep(st, w, st', w') {
      hide Orphan;
      WorkerKeepsOrphan(st, w, st', w', s);
    } else if !(st' == st && w' == Idle) {
      hide Orphan;
      var a := TheWrite(st, w, st', w');
      WriteKeepsOrphan(st, w, a, s);
    }
  }

  /** A schedule left behind stays in every run from there on: no pass, full or not,
      deletes it, and no write brings its row back. */
  lemma {:induction false} OrphanIsForever(run: seq<Moment>, i: nat, j: nat, s: Id)
    requires Run(run) && i <= j < |run| && Orphan(run[i].store, run[i].worker, s)
    ensures Orphan(run[j].store, run[j].worker, s)
  {
    hide Next, Ids, Orphan;
    if i < j {
      OrphanIsForever(run, i, j - 1, s);
      NextKeepsOrphan(run[j - 1].store, run[j - 1].worker, run[j].store, run[j].worker, s);
    }
  }

  // ---- One sync, from the empty installation to its schedule

  const DATA := ConfigData(StrategyConfig(None, None, None, None), [], [], [], ["contact"])
  const CONFIGS: map<Id, SyncConfig> := map[0 := SyncConfig(0, DATA)]
  const CONNECTIONS: map<ConnectionId, Connection> := map[[] := Connection(0, 0, None)]
  const ROWS: map<Id, SyncRow> :=
    map[2 := SyncRow(EntityKey("contact"), [], 0, false, Strategy(FullThenIncremental, None), Created, false)]
  const SCHEDULES: map<Id, Schedule> := map[2 := Schedule([], false, FIFTEEN_MINUTES_MS, StringToNumber([], FIFTEEN_MINUTES_MS))]
  const PLAN := Plan(ROWS, {[]}, CONFIGS)

  const EMPTY := Empty(true)
  const CONFIGURED := Configured(true, DATA)
  const CONNECTED := Store(CONNECTIONS, {[]}, CONFIGS, ROWS, map[], map[], map[5 := 2], true, map[], 6)
  const SCHEDULED := Store(CONNECTIONS, {[]}, CONFIGS, ROWS, map[], map[], map[5 := 2], true, SCHEDULES, 6)

  function Empty(full: bool): Store {
    Store(map[], {}, map[], map[], map[], map[], map[], full, map[], 0)
  }

  function Configured(full: bool, data: ConfigData): Store {
    Store(map[], {}, map[0 := SyncConfig(0, data)], map[], map[], map[1 := 0], map[], full, map[], 2)
  }

  /** A config is created, and the first two parts of a pass run. */
  function Early(full: bool, data: ConfigData, k: nat): Moment {
    var st := Configured(full, data);
    match k
    case 0 => Moment(Empty(full), Idle)
    case 1 => Moment(st, Idle)
    case 2 => Moment(st, Begin(full))
    case 3 => Moment(st, ReadConnections(full, {}, {}))
    case 4 => Moment(st, ReadConfigs(full, {}, map[]))
    case 5 => Moment(st, Reconciling(full, {}, One, [], Create))
    case 6 => Moment(st, BeginTwo(full))
    case 7 => Moment(st, ReadTouchedConfigs(full, {1}, {0}))
    case 8 => Moment(st, Reconciling(full, {1}, Two([0], st.configs), [], Create))
    case 9 => Moment(st, Reconciling(full, {1}, Two([], st.configs), [], Create))
    case _ => Moment(st.(configChanges := map[]), BeginThree(full))
  }

  /** The first pass, which is a full one; the connection is created before part three. */
  function FirstPass(k: nat): Moment {
    if k <= 10 then Early(true, DATA, k) else
    match k
    case 11 => Moment(CONNECTED, BeginThree(true))
    case 12 => Moment(CONNECTED, ReadRows(true, {5}, {2}))
    case 13 => Moment(CONNECTED, ReadRowConnections(true, {5}, {2}, ROWS))
    case 14 => Moment(CONNECTED, ReadRowConfigs(true, {5}, {2}, ROWS, {[]}))
    case 15 => Moment(CONNECTED, Pausing(true, {5}, PLAN, [], []))
    case 16 => Moment(CONNECTED, Deleting(true, {5}, PLAN, []))
    case 17 => Moment(CONNECTED, Upserting(true, {5}, PLAN, [2]))
    case 18 => Moment(CONNECTED, Scheduling(true, {5}, PLAN, [2]))
    case 19 => Moment(SCHEDULED, Upserting(true, {5}, PLAN, []))
    case _ => Moment(SCHEDULED.(syncChanges := map[]), ClearFlag)
  }

  ghost predicate StepsTo(a: Moment, b: Moment) {
    Ids(a.store) && Ids(b.store) && Next(a.store, a.worker, b.store, b.worker)
  }

  lemma ConfiguredIds(full: bool, data: ConfigData)
    ensures Ids(Empty(full)) && Ids(Configured(full, data)) && Ids(Configured(full, data).(configChanges := map[]))
  {
  }

  lemma ConnectedIds()
    ensures Ids(CONNECTED)
  {
  }

  lemma ScheduledIds()
    ensures Ids(SCHEDULED) && Ids(SCHEDULED.(syncChanges := map[]))
  {
  }

  lemma FirstIds(k: nat)
    ensures Ids(FirstPass(k).store)
  {
    hide Ids;
    ConfiguredIds(true, DATA);
    ConnectedIds();
    ScheduledIds();
  }

  lemma EarlyIds(full: bool, data: ConfigData, k: nat)
    ensures Ids(Early(full, data, k).store)
  {
    hide Ids;
    ConfiguredIds(full, data);
  }

  lemma ConfigIsCreated(full: bool, data: ConfigData)
    ensures Enabled(Empty(full), CreateConfig(0, data)) && Ids(Empty(full)) && Apply(Empty(full), CreateConfig(0, data)) == Configured(full, data)
  {
  }

  lemma ContactIsDesired()
    ensures var args := [SyncArgs(EntityKey("contact"), false, Strategy(FullThenIncremental, None))];
            Desired(DATA, None) == args && ConnectionArgs(DATA, false) == args
  {
    var args := [SyncArgs(EntityKey("contact"), false, Strategy(FullThenIncremental, None))];
    assert Desired(DATA, None) == args;
    assert ConnectionArgs(DATA, false) == args;
  }

  lemma ContactIsInserted(st: Store)
    requires st.rows == map[] && st.next == 2
    ensures var args := [SyncArgs(EntityKey("contact"), false, Strategy(FullThenIncremental, None))];
            CreateSyncs(st, Task([], Some(0), args)) == st.(rows := ROWS, next := 3)
  {
  }

  lemma ContactIsAnnounced(st: Store)
    requires st.rows == ROWS && st.next == 3 && st.syncChanges == map[]
    ensures AddSyncChanges(st, []) == st.(syncChanges := map[5 := 2], next := 6)
  {
    assert RowsOf(ROWS, []) == {2};
    assert AddedFor({2}, 3, 5);
    assert AddChanges(map[], {2}, 3) == map[5 := 2];
  }

  lemma ConnectionIsCreated()
    ensures var st, a := CONFIGURED.(configChanges := map[]), CreateConnection([], 0, 0, Some(0), false);
            Ids(st) && Enabled(st, a) && Apply(st, a) == CONNECTED
  {
    var st := CONFIGURED.(configChanges := map[]);
    ConfiguredIds(true, DATA);
    ConfigCanBeUsed();
    ContactIsDesired();
    hide Desired, ConnectionArgs, Ids, Enabled, CreateSyncs, AddSyncChanges, Apply;
    CreatedInSteps(st, [], 0, 0, 0, false);
    var st1 := st.(connections := CONNECTIONS, seen := {[]});
    assert st.connections[[] := Connection(0, 0, None)] == CONNECTIONS && st.seen + {[]} == {[]};
    ContactIsInserted(st1);
    ContactIsAnnounced(st1.(rows := ROWS, next := 3));
  }

  lemma ConfigCanBeUsed()
    ensures Enabled(CONFIGURED.(configChanges := map[]), CreateConnection([], 0, 0, Some(0), false))
  {
    ContactIsDesired();
    hide Desired;
  }

  lemma NothingIsReconciled(full: bool, data: ConfigData, k: nat)
    requires 0 < k < 5
    ensures var a, b := Early(full, data, k), Early(full, data, k + 1); QueryOne(a.store, a.worker, b.worker) && b.store == a.store
  {
    hide Ids;
  }

  lemma ConfigIsRead(full: bool, data: ConfigData, k: nat)
    requires 6 <= k < 9
    ensures var a, b := Early(full, data, k), Early(full, data, k + 1); QueryTwo(a.store, a.worker, b.worker) && b.store == a.store
  {
    var changes: map<Id, Id> := map[1 := 0];
    assert changes.Values == {0} by { assert changes[1] == 0; }
    var rest: seq<Id> := [0];
    assert rest[1..] == [];
    var configs: map<Id, SyncConfig> := map[0 := SyncConfig(0, data)];
    assert configs.Keys == {0};
    assert (map g | g in configs && g in {0} :: configs[g]) == configs;
  }

  lemma EarlyPartsFinish(full: bool, data: ConfigData, k: nat)
    requires k == 5 || k == 9
    ensures var a, b := Early(full, data, k), Early(full, data, k + 1); FinishPart(a.store, a.worker, b.store, b.worker)
  {
  }

  lemma EarlySteps(full: bool, data: ConfigData, k: nat)
    requires k < 10
    ensures StepsTo(Early(full, data, k), Early(full, data, k + 1))
  {
    EarlyIds(full, data, k);
    EarlyIds(full, data, k + 1);
    if k == 0 {
      ConfigIsCreated(full, data);
      assert Early(full, data, 1) == Moment(Configured(full, data), Idle);
    } else if k == 5 || k == 9 {
      EarlyPartsFinish(full, data, k);
    } else if k < 5 {
      NothingIsReconciled(full, data, k);
    } else {
      ConfigIsRead(full, data, k);
    }
    hide Ids, WriteSyncs, WriteSchedules, QueryOne, QueryTwo, QueryThree, FinishPart, Enabled, Apply;
  }

  lemma RowIsRead(k: nat)
    requires 11 <= k < 17
    ensures QueryThree(FirstPass(k).store, FirstPass(k).worker, FirstPass(k + 1).worker) && FirstPass(k + 1).store == FirstPass(k).store
  {
    var changes: map<Id, Id> := map[5 := 2];
    assert changes.Values == {2} by { assert changes[5] == 2; }
    assert ROWS.Keys == {2} && CONNECTIONS.Keys == {[]};
  }

  lemma PartThreeQueries(k: nat)
    requires 11 <= k < 17
    ensures StepsTo(FirstPass(k), FirstPass(k + 1))
  {
    FirstIds(k);
    FirstIds(k + 1);
    RowIsRead(k);
    hide Ids, WriteSyncs, WriteSchedules, QueryOne, QueryTwo, QueryThree, FinishPart, Enabled, Apply, FirstPass;
  }

  lemma ContactIsScheduled(k: nat)
    requires 17 <= k < 19
    ensures WriteSchedules(FirstPass(k).store, FirstPass(k).worker, FirstPass(k + 1).store, FirstPass(k + 1).worker)
  {
    hide StringToNumber;
    if k == 17 {
      assert CONNECTED.rows[2 := ROWS[2]] == ROWS;
    } else {
      assert map[][2 := SCHEDULES[2]] == SCHEDULES;
    }
  }

  lemma PartThreeWrites(k: nat)
    requires 17 <= k < 20
    ensures StepsTo(FirstPass(k), FirstPass(k + 1))
  {
    FirstIds(k);
    FirstIds(k + 1);
    if k == 19 {
      SchedulingFinishes();
    } else {
      ContactIsScheduled(k);
    }
    hide Ids, WriteSyncs, WriteSchedules, QueryOne, QueryTwo, QueryThree, FinishPart, Enabled, Apply, FirstPass;
  }

  lemma SchedulingFinishes()
    ensures FinishPart(FirstPass(19).store, FirstPass(19).worker, FirstPass(20).store, FirstPass(20).worker)
  {
    hide StringToNumber;
  }

  lemma CreationMoments()
    ensures FirstPass(10) == Moment(CONFIGURED.(configChanges := map[]), BeginThree(true)) && FirstPass(11) == Moment(CONNECTED, BeginThree(true))
  {
  }

  /** A writer's transaction is a step. */
  lemma WriteStepsTo(st: Store, st': Store, w: Worker, a: Write)
    requires Ids(st) && Ids(st') && Enabled(st, a) && st' == Apply(st, a)
    ensures StepsTo(Moment(st, w), Moment(st', w))
  {
    hide Ids, Enabled, Apply, WorkerStep;
  }

  lemma CreationStep()
    ensures StepsTo(FirstPass(10), FirstPass(11))
  {
    hide *;
    FirstIds(10);
    FirstIds(11);
    CreationMoments();
    ConnectionIsCreated();
    WriteStepsTo(CONFIGURED.(configChanges := map[]), CONNECTED, BeginThree(true), CreateConnection([], 0, 0, Some(0), false));
  }

  lemma FirstPassSteps(k: nat)
    requires k < 20
    ensures StepsTo(FirstPass(k), FirstPass(k + 1))
  {
    if k < 10 {
      EarlySteps(true, DATA, k);
      hide StepsTo, Early;
    } else {
      hide StepsTo, FirstPass;
      if k == 10 {
        CreationStep();
      } else if k < 17 {
        PartThreeQueries(k);
      } else {
        PartThreeWrites(k);
      }
    }
  }

  lemma StepsAreRun(run: seq<Moment>)
    requires |run| > 1 && forall k :: 0 < k < |run| ==> StepsTo(run[k - 1], run[k])
    ensures Run(run)
  {
    hide Ids, Next;
    forall k | 0 <= k < |run| ensures Ids(run[k].store) {
      if k == 0 {
        assert StepsTo(run[0], run[1]);
      } else {
        assert StepsTo(run[k - 1], run[k]);
      }
    }
  }

  /** Two more steps after the first pass. */
  function Ending(x: Moment, y: Moment): (run: seq<Moment>)
    ensures |run| == 23 && run[21] == x && run[22] == y && forall k :: 0 <= k <= 20 ==> run[k] == FirstPass(k)
  {
    seq(23, k requires 0 <= k < 23 => if k <= 20 then FirstPass(k) else if k == 21 then x else y)
  }

  lemma EndingIsRun(x: Moment, y: Moment)
    requires StepsTo(FirstPass(20), x) && StepsTo(x, y)
    ensures Run(Ending(x, y)) && Start(Ending(x, y)[0])
  {
    var run := Ending(x, y);
    assert run[0] == FirstPass(0);
    hide *;
    forall i | 0 < i < |run| ensures StepsTo(run[i - 1], run[i]) {
      if i <= 20 {
        FirstPassSteps(i - 1);
      }
    }
    StepsAreRun(run);
    StartsEmpty();
  }

  lemma StartsEmpty()
    ensures Start(FirstPass(0))
  {
  }

  const FIRST: Store := SCHEDULED.(syncChanges := map[])
  const LOST: Store := FIRST.(schedules := map[], full := false)
  const LEFT: Store := FIRST.(connections := map[], rows := map[], full := false)

  lemma LostIds()
    ensures Ids(FIRST) && Ids(FIRST.(schedules := map[])) && Ids(LOST)
  {
  }

  lemma LeftIds()
    ensures Ids(FIRST) && Ids(FIRST.(full := false)) && Ids(LEFT)
  {
  }

  lemma DeletedByHand()
    ensures var a, st := Tamper(2, None), FIRST.(schedules := map[]);
            Ids(FIRST) && Enabled(FIRST, a) && Apply(FIRST, a) == st
  {
    ScheduledIds();
    hide Ids, StringToNumber;
    assert SCHEDULES - {2} == map[];
  }

  lemma NothingIsScheduled()
    ensures QueuesEmpty(LOST) && !ScheduleSafe(LOST, 2)
  {
  }

  /** A schedule deleted by hand just before the flag is cleared, with a full pass
      requested, is gone although its row is there and nothing is recorded. */
  lemma RequestIsLost()
    ensures exists run: seq<Moment>, i: nat ::
              && Run(run) && Start(run[0]) && 0 < i < |run| - 1 && WritesAt(run, i, Tamper(2, None))
              && QueuesEmpty(run[|run| - 1].store) && !ScheduleSafe(run[|run| - 1].store, 2)
  {
    var x, y := Moment(FIRST.(schedules := map[]), ClearFlag), Moment(LOST, Idle);
    LostIds();
    DeletedByHand();
    NothingIsScheduled();
    hide Ids, Enabled, Apply, QueuesEmpty, ScheduleSafe, QueryOne, QueryTwo, QueryThree, WriteSyncs, WriteSchedules;
    assert FinishPart(x.store, x.worker, y.store, y.worker);
    hide FinishPart;
    LastSteps(x, y, 21, Tamper(2, None));
  }

  /** The write and the end of the pass, in either order. */
  lemma LastSteps(x: Moment, y: Moment, i: nat, a: Write)
    requires Ids(FIRST) && Ids(x.store) && Ids(y.store) && Next(FIRST, ClearFlag, x.store, x.worker) && Next(x.store, x.worker, y.store, y.worker)
    requires (i == 21 && Writes(FIRST, ClearFlag, x.store, x.worker, a)) || (i == 22 && Writes(x.store, x.worker, y.store, y.worker, a))
    ensures Run(Ending(x, y)) && Start(Ending(x, y)[0]) && WritesAt(Ending(x, y), i, a)
  {
    hide Next, Ids, Writes;
    assert StepsTo(FirstPass(20), x) && StepsTo(x, y);
    EndingIsRun(x, y);
    hide Run, Start, Ending;
  }

  lemma DeletedByCascade()
    ensures var a, st := CascadeDelete({[]}, {}, {}), FIRST.(full := false);
            Ids(st) && Enabled(st, a) && Apply(st, a) == LEFT
  {
    LeftIds();
    hide Ids, StringToNumber;
    assert CONNECTIONS - {[]} == map[] && CONFIGS - {} == CONFIGS;
    assert 2 in ROWS && Cascades(ROWS[2], {[]}, {}, {});
  }

  lemma ScheduleIsLeft()
    ensures QueuesEmpty(LEFT) && !ScheduleSafe(LEFT, 2) && Orphan(LEFT, Idle, 2)
  {
  }

  /** The customer of the connection is deleted after the first pass: its schedule
      stays, and OrphanIsForever says for how long. */
  lemma CascadeLeavesOrphan()
    ensures exists run: seq<Moment>, i: nat ::
              && Run(run) && Start(run[0]) && 0 < i < |run| && WritesAt(run, i, CascadeDelete({[]}, {}, {}))
              && Orphan(run[i].store, run[i].worker, 2) && QueuesEmpty(run[i].store) && !ScheduleSafe(run[i].store, 2)
  {
    var x, y := Moment(FIRST.(full := false), Idle), Moment(LEFT, Idle);
    LeftIds();
    DeletedByCascade();
    ScheduleIsLeft();
    hide Ids, Enabled, Apply, QueuesEmpty, ScheduleSafe, Orphan, QueryOne, QueryTwo, QueryThree, WriteSyncs, WriteSchedules;
    assert FinishPart(FIRST, ClearFlag, x.store, x.worker);
    hide FinishPart;
    LastSteps(x, y, 22, CascadeDelete({[]}, {}, {}));
  }

  // ---- A connection without its syncs

  const REPEATED :=
    ConfigData(StrategyConfig(None, None, None, None), [], [], [ObjectConfig("deal", None), ObjectConfig("deal", None)], [])
  const QUIET: Store := Configured(false, REPEATED).(configChanges := map[])
  const BARE: Store := QUIET.(connections := CONNECTIONS, seen := {[]})

  /** A config with a custom object twice; a pass; and then a customer connects. */
  function Connecting(k: nat): Moment {
    if k <= 10 then Early(false, REPEATED, k) else
    var plan := Plan(map[], {}, QUIET.configs);
    match k
    case 11 => Moment(QUIET, ReadRows(false, {}, {}))
    case 12 => Moment(QUIET, ReadRowConnections(false, {}, {}, map[]))
    case 13 => Moment(QUIET, ReadRowConfigs(false, {}, {}, map[], {}))
    case 14 => Moment(QUIET, Pausing(false, {}, plan, [], []))
    case 15 => Moment(QUIET, Deleting(false, {}, plan, []))
    case 16 => Moment(QUIET, Upserting(false, {}, plan, []))
    case 17 => Moment(QUIET, Idle)
    case _ => Moment(BARE, Idle)
  }

  lemma QuietIds()
    ensures Ids(QUIET) && Ids(BARE)
  {
  }

  lemma NothingIsRead(k: nat)
    requires 10 <= k < 16
    ensures QueryThree(Connecting(k).store, Connecting(k).worker, Connecting(k + 1).worker)
    ensures Connecting(k).store == Connecting(k + 1).store == QUIET
  {
  }

  lemma ConnectingSteps(k: nat)
    requires k < 17
    ensures StepsTo(Connecting(k), Connecting(k + 1))
  {
    if k < 10 {
      EarlySteps(false, REPEATED, k);
      hide StepsTo, Early;
    } else {
      QuietIds();
      if k < 16 {
        NothingIsRead(k);
        hide Connecting;
      } else {
        assert FinishPart(QUIET, Connecting(16).worker, QUIET, Idle);
      }
      hide Ids, WriteSyncs, WriteSchedules, QueryOne, QueryTwo, QueryThree, FinishPart, Enabled, Apply;
    }
  }

  /** Creating the connection fails, as a sync of it would be there twice; upserting it
      does not. */
  lemma OnlyUpsertConnects()
    ensures Ids(QUIET) && Enabled(QUIET, UpsertConnection([], 0, 0)) && Apply(QUIET, UpsertConnection([], 0, 0)) == BARE
    ensures forall c, paused :: !Enabled(QUIET, CreateConnection(c, 0, 0, Some(0), paused))
  {
    QuietIds();
    assert !Connected(QUIET.connections, 0, 0);
    assert QUIET.connections[[] := Connection(0, 0, None)] == CONNECTIONS && QUIET.seen + {[]} == {[]};
    DealIsRepeated();
    hide Desired, DistinctKeys, Ids;
  }

  lemma DealIsRepeated()
    ensures !DistinctKeys(Desired(REPEATED, None)) && Desired(REPEATED, None) != []
  {
    var args := Desired(REPEATED, None);
    assert |args| == 2 && args[0].key == args[1].key;
  }

  lemma BareIsForgotten()
    ensures Serves(BARE, 0, []) && !SyncsSafe(BARE, 0, []) && QueuesEmpty(BARE)
  {
    DealIsRepeated();
    hide Desired, Matches;
    BareConnectionMatches(BARE, [], Desired(REPEATED, None));
  }

  /** A valid config, no failure, and no two things at once: the connection is there, its
      syncs are not, and nothing is recorded. */
  lemma ConnectionIsForgotten()
    ensures exists run: seq<Moment>, i: nat ::
              && Run(run) && Start(run[0]) && 0 < i < |run| && WritesAt(run, i, UpsertConnection([], 0, 0))
              && (forall c, paused :: !Enabled(run[i - 1].store, CreateConnection(c, 0, 0, Some(0), paused)))
              && run[i].worker == Idle && QueuesEmpty(run[i].store) && Serves(run[i].store, 0, []) && !SyncsSafe(run[i].store, 0, [])
  {
    var run := seq(19, k requires 0 <= k < 19 => Connecting(k));
    ConnectingEnds();
    OnlyUpsertConnects();
    BareIsForgotten();
    QuietIds();
    assert run[17] == Moment(QUIET, Idle) && run[18] == Moment(BARE, Idle);
    hide *;
    ConnectingIsRun(run);
    IsWriteAt(run, 18, UpsertConnection([], 0, 0));
  }

  lemma ConnectingIsRun(run: seq<Moment>)
    requires |run| == 19 && forall k :: 0 <= k < 19 ==> run[k] == Connecting(k)
    ensures Run(run) && Start(run[0])
  {
    ConnectingEnds();
    OnlyUpsertConnects();
    QuietIds();
    hide *;
    WriteStepsTo(QUIET, BARE, Idle, UpsertConnection([], 0, 0));
    forall k | 0 < k < |run| ensures StepsTo(run[k - 1], run[k]) {
      if k < 18 {
        ConnectingSteps(k - 1);
      }
    }
    StepsAreRun(run);
  }

  lemma ConnectingEnds()
    ensures Start(Connecting(0)) && Connecting(17) == Moment(QUIET, Idle) && Connecting(18) == Moment(BARE, Idle)
  {
  }

  lemma IsWriteAt(run: seq<Moment>, i: nat, a: Write)
    requires Run(run) && 0 < i < |run| && run[i].worker == run[i - 1].worker
    requires Ids(run[i - 1].store) && Enabled(run[i - 1].store, a) && run[i].store == Apply(run[i - 1].store, a)
    ensures WritesAt(run, i, a)
  {
    hide Run, Ids, Enabled, Apply;
  }
}
