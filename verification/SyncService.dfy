/** The worker as the program it is: the three parts of `processSyncChanges` with
    their loops. Every query and write is a step of the outbox protocol, so the
    invariant holds throughout, also when a part throws half-way; and an
    uninterrupted pass that does not throw leaves everything in line. */
module SyncService {
  import opened StringHash
  import opened SyncTypes
  import opened Reconcile
  import opened Outbox
  import opened OutboxInvariant
  import opened OutboxWriters
  import opened OutboxWorker
  import opened OutboxTheorems

  /** What a pass leaves alone: connections, configs, the flag, and everything but
      the strategy in the rows that survive. */
  ghost predicate Kept(st: Store, st': Store) {
    && st'.connections == st.connections && st'.configs == st.configs && st'.full == st.full
    && (forall s :: s in st.rows && s in st'.rows ==> st'.rows[s].(strategy := st.rows[s].strategy) == st.rows[s])
    && st.next <= st'.next
    && (forall s :: s in st'.rows && s !in st.rows ==> st.next <= s)
  }

  lemma KeptTwice(a: Store, b: Store, c: Store)
    requires Kept(a, b) && Kept(b, c) && Ids(a) && Ids(b)
    ensures Kept(a, c)
  {
  }

  /** Part one looks up the config of every connection it considers. */
  ghost predicate HasConfig(st: Store, c: ConnectionId) {
    exists g :: Serves(st, g, c)
  }

  ghost predicate AllHaveConfigs(st: Store, full: bool) {
    forall c :: c in st.connections && (full || c in st.connectionChanges.Values) ==> HasConfig(st, c)
  }

  /** A connection is created whose provider has no config, and given one of its own. */
  function Unserved(k: nat): Store {
    var st := Store(map[], {}, map[], map[], map[], map[], map[], false, map[], 0);
    if k == 0 then st
    else
      var st1 := st.(connections := map[[] := Connection(0, 0, None)], seen := {[]});
      if k == 1 then st1 else st1.(connectionChanges := map[0 := []], next := 1)
  }

  lemma UnservedIds(k: nat)
    ensures Ids(Unserved(k))
  {
  }

  lemma UnservedStep(k: nat)
    requires k < 2
    ensures Ids(Unserved(k)) && Next(Unserved(k), Idle, Unserved(k + 1), Idle)
  {
    UnservedIds(k);
    hide WorkerStep, Ids;
    var a := if k == 0 then CreateConnection([], 0, 0, None, false) else SetConnectionSyncConfig([], None);
    assert Enabled(Unserved(k), a) && Unserved(k + 1) == Apply(Unserved(k), a);
  }

  lemma UnservedHasNoConfig()
    ensures !AllHaveConfigs(Unserved(2), true) && !AllHaveConfigs(Unserved(2), false)
  {
    var st := Unserved(2);
    assert st.connectionChanges[0] == [] && [] in st.connections && !HasConfig(st, []);
  }

  /** A run from an empty installation to a state in which every pass throws. */
  lemma PassCanThrow()
    ensures exists run: seq<Moment> ::
              && Run(run) && Start(run[0])
              && var m := run[|run| - 1]; m.worker == Idle && !AllHaveConfigs(m.store, true) && !AllHaveConfigs(m.store, false)
  {
    var run := seq(3, k requires 0 <= k < 3 => Moment(Unserved(k), Idle));
    assert Start(run[0]);
    UnservedHasNoConfig();
    hide Unserved, Next, Ids, AllHaveConfigs, Start;
    forall i | 0 <= i < 3 ensures Ids(run[i].store) {
      UnservedIds(i);
    }
    forall i | 0 < i < 3 ensures Next(run[i - 1].store, run[i - 1].worker, run[i].store, run[i].worker) {
      UnservedStep(i - 1);
    }
    assert Run(run);
  }

  /** The record from provider to config that part one looks configs up in. */
  method IndexByProvider(configs: map<Id, SyncConfig>) returns (index: map<Id, Id>)
    ensures forall p :: p in index ==> ConfigFor(configs, p, Some(index[p]))
    ensures forall p :: p !in index ==> ConfigFor(configs, p, None)
  {
    index := map[];
    var order := InAnyOrder(configs.Keys);
    for i := 0 to |order|
      invariant forall p :: p in index ==> ConfigFor(configs, p, Some(index[p]))
      invariant forall j :: 0 <= j < i ==> configs[order[j]].provider in index
    {
      index := index[configs[order[i]].provider := order[i]];
    }
    forall p | p !in index ensures ConfigFor(configs, p, None) {
      forall g | g in configs ensures configs[g].provider != p {
        assert g in order;
      }
    }
  }

  function TaskOf(c: ConnectionId, connection: Connection, configs: map<Id, SyncConfig>, index: map<Id, Id>): Task
    requires forall p :: p in index ==> index[p] in configs
  {
    if connection.provider in index
    then Task(c, Some(index[connection.provider]), Desired(configs[index[connection.provider]].data, connection.override))
    else Task(c, None, [])
  }

  /** The index is built from the configs of the providers looked up. */
  ghost predicate IndexFor(index: map<Id, Id>, configs: map<Id, SyncConfig>, connections: map<ConnectionId, Connection>) {
    && (forall p :: p in index ==> index[p] in configs && configs[index[p]].provider == p)
    && (forall c :: c in connections && connections[c].provider !in index ==> ConfigFor(configs, connections[c].provider, None))
  }

  ghost function TasksOf(order: seq<ConnectionId>, connections: map<ConnectionId, Connection>, configs: map<Id, SyncConfig>, index: map<Id, Id>): (todo: seq<Task>)
    requires Lists(order, connections.Keys) && IndexFor(index, configs, connections)
    ensures |todo| == |order|
    ensures forall i :: 0 <= i < |order| ==> todo[i] == TaskOf(order[i], connections[order[i]], configs, index)
  {
    seq(|order|, i requires 0 <= i < |order| => TaskOf(order[i], connections[order[i]], configs, index))
  }

  lemma TasksAreRight(order: seq<ConnectionId>, connections: map<ConnectionId, Connection>, configs: map<Id, SyncConfig>, index: map<Id, Id>)
    requires Lists(order, connections.Keys) && IndexFor(index, configs, connections)
    ensures TasksOfConnections(TasksOf(order, connections, configs, index), connections, configs)
  {
    var todo := TasksOf(order, connections, configs, index);
    hide Desired;
    forall c | c in connections ensures Listed(todo, c) {
      var i :| 0 <= i < |order| && order[i] == c;
      assert todo[i] in todo && todo[i].connection == c;
    }
  }

  lemma TaskHasConfig(st: Store, c: ConnectionId, connections: map<ConnectionId, Connection>, index: map<Id, Id>)
    requires c in connections && c in st.connections && connections[c] == st.connections[c] && IndexFor(index, st.configs, connections)
    ensures var t := TaskOf(c, connections[c], st.configs, index);
            && t.connection == c && (t.config.Some? ==> Serves(st, t.config.value, c))
            && (t.config.Some? <==> HasConfig(st, c))
  {
    hide Desired;
  }

  ghost function ConfigTasks(order: seq<ConnectionId>, g: Id, config: SyncConfig, connections: map<ConnectionId, Connection>): (todo: seq<Task>)
    requires Lists(order, connections.Keys)
    ensures |todo| == |order|
    ensures forall i :: 0 <= i < |order| ==> todo[i] == Task(order[i], Some(g), Desired(config.data, connections[order[i]].override))
  {
    seq(|order|, i requires 0 <= i < |order| => Task(order[i], Some(g), Desired(config.data, connections[order[i]].override)))
  }

  lemma ConfigTasksAreRight(order: seq<ConnectionId>, g: Id, config: SyncConfig, connections: map<ConnectionId, Connection>, all: map<ConnectionId, Connection>)
    requires Lists(order, connections.Keys)
    requires connections == map c | c in all && all[c].provider == config.provider :: all[c]
    ensures TasksOfConfig(ConfigTasks(order, g, config, connections), g, config, all)
  {
    var todo := ConfigTasks(order, g, config, connections);
    hide Desired;
    forall i | 0 <= i < |order| ensures order[i] in connections && connections[order[i]] == all[order[i]] {
      assert order[i] in order;
    }
    forall c | c in connections ensures Listed(todo, c) {
      var i :| 0 <= i < |order| && order[i] == c;
      assert todo[i] in todo && todo[i].connection == c;
    }
  }

  lemma ServesStays(st: Store, st': Store)
    requires st'.connections == st.connections && st'.configs == st.configs
    ensures forall g, c :: Serves(st, g, c) ==> Serves(st', g, c)
  {
  }

  /** The syncs part three considers. */
  function SyncsRead(st: Store, full: bool): map<Id, SyncRow> {
    if full then st.rows else map s | s in st.rows && s in st.syncChanges.Values :: st.rows[s]
  }

  /** The connections whose provider has one of the configs. */
  ghost function Under(st: Store, configs: set<Id>): set<ConnectionId> {
    set c | c in st.connections && exists g :: g in configs && Serves(st, g, c)
  }

  lemma UnderFewer(st: Store, st': Store, g: Id, configs: set<Id>)
    requires g in configs && st'.connections == st.connections && st'.configs == st.configs
    ensures Under(st', {g}) <= Under(st, configs)
  {
  }

  /** The configs part two considers. */
  function ConfigsRead(st: Store, full: bool): map<Id, SyncConfig> {
    if full then st.configs else map g | g in st.configs && g in st.configChanges.Values :: st.configs[g]
  }

  /** The connections part one considers. */
  function Considered(st: Store, full: bool): map<ConnectionId, Connection> {
    if full then st.connections else map c | c in st.connections && c in st.connectionChanges.Values :: st.connections[c]
  }

  lemma AllConsidered(st: Store, full: bool, order: seq<ConnectionId>)
    requires Lists(order, Considered(st, full).Keys)
    ensures AllHaveConfigs(st, full) <==> forall j :: 0 <= j < |order| ==> HasConfig(st, order[j])
  {
    hide HasConfig;
    assert forall j :: 0 <= j < |order| ==> order[j] in order && order[j] in Considered(st, full);
    if forall j :: 0 <= j < |order| ==> HasConfig(st, order[j]) {
      forall c | c in st.connections && (full || c in st.connectionChanges.Values) ensures HasConfig(st, c) {
        assert c in Considered(st, full) && c in order;
      }
    }
  }

  // ---- The steps the program takes, as steps of the protocol

  ghost predicate AtTask(w: Worker, stage: Stage, t: Task) {
    w.Reconciling? && w.stage == stage && w.todo != [] && w.todo[0] == t
  }

  lemma InsertStep(st: Store, w: Worker, t: Task)
    requires Inv(st, w) && Ids(st) && AtTask(w, Create, t) && t.config.Some? && Serves(st, t.config.value, t.connection)
    ensures Inv(CreateSyncs(st, t), Reconciling(w.full, w.ids, w.part, w.todo, Change))
    ensures Ids(CreateSyncs(st, t))
  {
    var w' := Reconciling(w.full, w.ids, w.part, w.todo, Change);
    hide Inv, Ids, CreateSyncs;
    assert WriteSyncs(st, w, CreateSyncs(st, t), w');
    WorkerKeepsInv(st, w, CreateSyncs(st, t), w');
    InvHasIds(CreateSyncs(st, t), w');
  }

  lemma RecordStep(st: Store, w: Worker, t: Task)
    requires Inv(st, w) && Ids(st) && AtTask(w, Change, t)
    ensures Inv(AddSyncChanges(st, t.connection), Reconciling(w.full, w.ids, w.part, w.todo, Delete))
  {
    var w' := Reconciling(w.full, w.ids, w.part, w.todo, Delete);
    hide Inv, AddSyncChanges;
    assert WriteSyncs(st, w, AddSyncChanges(st, t.connection), w');
    WorkerKeepsInv(st, w, AddSyncChanges(st, t.connection), w');
  }

  lemma RemoveStep(st: Store, w: Worker, t: Task)
    requires Inv(st, w) && AtTask(w, Delete, t)
    ensures Inv(DeleteSyncs(st, t), Reconciling(w.full, w.ids, w.part, w.todo[1..], Create))
  {
    InvHasIds(st, w);
    var w' := Reconciling(w.full, w.ids, w.part, w.todo[1..], Create);
    hide Inv, Ids, DeleteSyncs;
    assert WriteSyncs(st, w, DeleteSyncs(st, t), w');
    WorkerKeepsInv(st, w, DeleteSyncs(st, t), w');
  }

  lemma FinishOne(st: Store, w: Worker)
    requires Inv(st, w) && w.Reconciling? && w.part.One? && w.todo == [] && w.stage == Create
    ensures Inv(st.(connectionChanges := st.connectionChanges - w.ids), BeginTwo(w.full))
    ensures Kept(st, st.(connectionChanges := st.connectionChanges - w.ids))
  {
    hide Inv;
    FinishStep(st, w, st.(connectionChanges := st.connectionChanges - w.ids), BeginTwo(w.full));
  }

  lemma FinishTwo(st: Store, w: Worker)
    requires Inv(st, w) && w.Reconciling? && w.part.Two? && w.part.rest == [] && w.todo == [] && w.stage == Create
    ensures Inv(st.(configChanges := st.configChanges - w.ids), BeginThree(w.full))
    ensures Kept(st, st.(configChanges := st.configChanges - w.ids))
  {
    hide Inv;
    FinishStep(st, w, st.(configChanges := st.configChanges - w.ids), BeginThree(w.full));
  }

  lemma FinishThree(st: Store, w: Worker)
    requires Inv(st, w) && w.Upserting? && w.left == []
    ensures Inv(st.(syncChanges := st.syncChanges - w.ids), if w.full then ClearFlag else Idle)
    ensures Kept(st, st.(syncChanges := st.syncChanges - w.ids))
  {
    hide Inv;
    FinishStep(st, w, st.(syncChanges := st.syncChanges - w.ids), if w.full then ClearFlag else Idle);
  }

  lemma FinishFlag(st: Store)
    requires Inv(st, ClearFlag)
    ensures Inv(st.(full := false), Idle)
  {
    hide Inv;
    FinishStep(st, ClearFlag, st.(full := false), Idle);
  }

  lemma PauseStep(st: Store, w: Worker)
    requires Inv(st, w) && w.Pausing? && w.left != []
    ensures Inv(PauseSchedule(st, w.left[0]), Pausing(w.full, w.ids, w.plan, w.gone, w.left[1..]))
    ensures Kept(st, PauseSchedule(st, w.left[0]))
  {
    hide Inv;
    PauseOrDelete(st, w, PauseSchedule(st, w.left[0]), Pausing(w.full, w.ids, w.plan, w.gone, w.left[1..]));
  }

  lemma DeleteScheduleStep(st: Store, w: Worker)
    requires Inv(st, w) && w.Deleting? && w.left != []
    ensures Inv(DeleteSchedule(st, w.left[0]), Deleting(w.full, w.ids, w.plan, w.left[1..]))
    ensures Kept(st, DeleteSchedule(st, w.left[0]))
  {
    hide Inv;
    PauseOrDelete(st, w, DeleteSchedule(st, w.left[0]), Deleting(w.full, w.ids, w.plan, w.left[1..]));
  }

  /** The row is in the plan with its parents. */
  ghost predicate Planned(w: Worker, s: Id) {
    && (w.Upserting? || w.Scheduling?) && w.left != [] && w.left[0] == s && s in w.plan.rows
    && w.plan.rows[s].connection in w.plan.connections && w.plan.rows[s].config in w.plan.configs
  }

  lemma StrategyStep(st: Store, w: Worker, s: Id)
    requires Inv(st, w) && w.Upserting? && Planned(w, s) && s in st.rows
    ensures var row := w.plan.rows[s];
            var st' := StoreStrategy(st, s, StrategyOf(w.plan.configs[row.config].data, row.key));
            Inv(st', Scheduling(w.full, w.ids, w.plan, w.left)) && Kept(st, st')
  {
    hide Inv, StrategyOf;
    var row := w.plan.rows[s];
    StoreStrategyStep(st, w, StoreStrategy(st, s, StrategyOf(w.plan.configs[row.config].data, row.key)),
                      Scheduling(w.full, w.ids, w.plan, w.left));
  }

  lemma UpsertStep(st: Store, w: Worker, s: Id)
    requires Inv(st, w) && w.Scheduling? && Planned(w, s)
    ensures var row := w.plan.rows[s];
            var st' := st.(schedules := UpsertSchedule(st.schedules, s, row, PeriodOf(w.plan.configs[row.config].data, row.key)));
            Inv(st', Upserting(w.full, w.ids, w.plan, w.left[1..])) && Kept(st, st')
  {
    hide Inv, UpsertSchedule, PeriodOf;
    var row := w.plan.rows[s];
    ScheduleStep(st, w, st.(schedules := UpsertSchedule(st.schedules, s, row, PeriodOf(w.plan.configs[row.config].data, row.key))),
                 Upserting(w.full, w.ids, w.plan, w.left[1..]));
  }

  lemma RowsAreServed(st: Store, w: Worker)
    requires Inv(st, w)
    ensures forall s :: s in st.rows ==> Serves(st, st.rows[s].config, st.rows[s].connection)
  {
    hide Ids, UniqueKeys, Offsets, Fresh, Backed, Covered, NoOrphans, Matched;
  }

  lemma KeptOnce(st: Store)
    ensures Kept(st, st)
  {
  }

  /** Syncs are inserted, recorded and deleted for these connections alone. */
  ghost predicate OnlyFor(st: Store, st': Store, cs: set<ConnectionId>) {
    && (forall s :: s in st.rows && s in st'.rows ==> st'.rows[s].connection == st.rows[s].connection)
    && (forall s :: s in st.rows && st.rows[s].connection !in cs ==> s in st'.rows && st'.rows[s] == st.rows[s])
    && (forall s :: s in st'.rows && s !in st.rows ==> st'.rows[s].connection in cs)
    && (forall s :: s in st.rows && st.rows[s].connection !in cs && s in st'.syncChanges.Values ==> s in st.syncChanges.Values)
  }

  lemma OnlyForTwice(a: Store, b: Store, c: Store, xs: set<ConnectionId>, ys: set<ConnectionId>)
    requires OnlyFor(a, b, xs) && OnlyFor(b, c, ys) && Kept(a, b) && Kept(b, c) && Ids(a) && Ids(b)
    ensures OnlyFor(a, c, xs + ys)
  {
  }

  lemma OnlyForNext(a: Store, b: Store, c: Store, xs: set<ConnectionId>, x: ConnectionId)
    requires OnlyFor(a, b, xs) && OnlyFor(b, c, {x}) && x in xs && Kept(a, b) && Kept(b, c) && Ids(a) && Ids(b)
    ensures OnlyFor(a, c, xs)
  {
    hide OnlyFor, Kept, Ids;
    OnlyForTwice(a, b, c, xs, {x});
    assert xs + {x} == xs;
  }

  lemma OnlyForAgain(a: Store, b: Store, c: Store, xs: set<ConnectionId>)
    requires OnlyFor(a, b, xs) && OnlyFor(b, c, xs) && Kept(a, b) && Kept(b, c) && Ids(a) && Ids(b)
    ensures OnlyFor(a, c, xs)
  {
    hide OnlyFor, Kept, Ids;
    OnlyForTwice(a, b, c, xs, xs);
    assert xs + xs == xs;
  }

  lemma OnlyForNone(st: Store, cs: set<ConnectionId>)
    ensures OnlyFor(st, st, cs)
  {
  }

  lemma SameTables(st: Store, st1: Store, st2: Store, cs: set<ConnectionId>)
    requires OnlyFor(st, st1, cs) && st2.rows == st1.rows && st2.syncChanges == st1.syncChanges
    ensures OnlyFor(st, st2, cs)
  {
  }

  lemma OnlyForMore(st: Store, st': Store, xs: set<ConnectionId>, ys: set<ConnectionId>)
    requires OnlyFor(st, st', xs) && xs <= ys
    ensures OnlyFor(st, st', ys)
  {
  }

  lemma RecordedOnlyFor(changes: map<Id, Id>, ids: set<Id>, next: Id, s: Id)
    requires (forall t :: t in ids ==> t < next) && (forall e :: e in changes ==> e < next)
    requires s !in ids && s in AddChanges(changes, ids, next).Values
    ensures s in changes.Values
  {
    hide AddChanges;
    var e :| e in AddChanges(changes, ids, next) && AddChanges(changes, ids, next)[e] == s;
    assert e in changes || AddedFor(ids, next, e);
  }

  lemma RecordsOnlyFor(st: Store, c: ConnectionId, s: Id)
    requires Ids(st) && s in st.rows && st.rows[s].connection != c && s in AddSyncChanges(st, c).syncChanges.Values
    ensures s in st.syncChanges.Values
  {
    hide AddChanges;
    RecordedOnlyFor(st.syncChanges, RowsOf(st.rows, c), st.next, s);
  }

  lemma InsertsBefore(st: Store, t: Task)
    requires Ids(st) && t.config.Some?
    ensures var st1 := CreateSyncs(st, t);
            st1.syncChanges == st.syncChanges && forall s :: s in st.rows ==> s in st1.rows && st1.rows[s] == st.rows[s]
  {
    hide CreateMany, HasArg;
  }

  lemma PassIsOnlyFor(st: Store, st1: Store, st': Store, t: Task)
    requires Ids(st) && t.config.Some? && st1 == CreateSyncs(st, t) && Ids(st1)
    requires st'.rows == Pass(st.rows, t.connection, t.config.value, t.args, st.next)
    requires st'.syncChanges == AddSyncChanges(st1, t.connection).syncChanges
    ensures OnlyFor(st, st', {t.connection})
  {
    PassKeepsSurvivors(st.rows, t.connection, t.config.value, t.args, st.next);
    hide Pass, UniqueKeys, HasArg, Ids, CreateSyncs, AddSyncChanges;
    InsertsBefore(st, t);
    forall s | s in st.rows && st.rows[s].connection != t.connection && s in st'.syncChanges.Values ensures s in st.syncChanges.Values {
      RecordsOnlyFor(st1, t.connection, s);
    }
  }

  lemma KeptRow(st: Store, st': Store, s: Id)
    requires Kept(st, st') && s in st.rows && s in st'.rows
    ensures st'.rows[s].(strategy := st.rows[s].strategy) == st.rows[s]
  {
  }

  /** The row of the sync and its schedule are the same. */
  ghost predicate SameSync(st: Store, st': Store, s: Id) {
    && (s in st'.rows <==> s in st.rows) && (s in st.rows ==> st'.rows[s] == st.rows[s])
    && (s in st'.schedules <==> s in st.schedules) && (s in st.schedules ==> st'.schedules[s] == st.schedules[s])
  }

  /** Nothing changes but the row of s and its schedule. */
  ghost predicate SettledOnly(st: Store, st': Store, s: Id) {
    st' == st.(rows := st'.rows, schedules := st'.schedules) && forall t :: t != s ==> SameSync(st, st', t)
  }

  /** Storing the strategy and upserting the schedule bring one sync in line. */
  lemma UpsertSettles(st: Store, st': Store, s: Id, row: SyncRow)
    requires s in st.rows && st.rows[s].(strategy := row.strategy) == row && row.config in st.configs
    requires var data := st.configs[row.config].data;
             var st1 := StoreStrategy(st, s, StrategyOf(data, row.key));
             st' == st1.(schedules := UpsertSchedule(st1.schedules, s, row, PeriodOf(data, row.key)))
    ensures s in st'.rows && Agrees(st', s) && SettledOnly(st, st', s)
  {
    hide PeriodOf, StrategyOf, StringToNumber;
  }

  lemma UnrelatedConnection(st: Store, s: Id)
    requires Tables(st) && s in st.rows && !AnyEvent(st, s)
    ensures st.rows[s].connection !in Considered(st, false)
    ensures st.rows[s].connection !in Under(st, ConfigsRead(st, false).Keys)
    ensures s !in st.syncChanges.Values
  {
    var row := st.rows[s];
    hide UniqueKeys, Ids;
    assert Serves(st, row.config, row.connection);
    forall g | g in st.configChanges.Values && Serves(st, g, row.connection) ensures g == row.config {
    }
    forall e | e in st.syncChanges ensures st.syncChanges[e] != s {
    }
    forall e | e in st.connectionChanges ensures st.connectionChanges[e] != row.connection {
    }
    forall e | e in st.configChanges ensures st.configChanges[e] != row.config {
    }
  }

  lemma SameReads(st: Store, st1: Store)
    requires st1.connections == st.connections && st1.configs == st.configs && st1.configChanges == st.configChanges
    ensures Under(st1, ConfigsRead(st1, false).Keys) == Under(st, ConfigsRead(st, false).Keys)
  {
    assert forall g, c :: Serves(st1, g, c) <==> Serves(st, g, c);
  }

  /** A sync for which nothing is recorded is passed over by parts one and two. */
  lemma PassedOver(st: Store, st1: Store, st2: Store, s: Id)
    requires Tables(st) && s in st.rows && !AnyEvent(st, s)
    requires OnlyFor(st, st1, Considered(st, false).Keys) && Kept(st, st1) && st1.configChanges == st.configChanges
    requires OnlyFor(st1, st2, Under(st1, ConfigsRead(st1, false).Keys))
    requires st1.schedules == st.schedules && st2.schedules == st1.schedules
    ensures s !in st2.syncChanges.Values && SameSync(st, st2, s)
  {
    UnrelatedConnection(st, s);
    SameReads(st, st1);
    hide Tables, Under, ConfigsRead, Considered, AnyEvent;
  }

  lemma SameAtFirst(st: Store)
    ensures forall s :: SameSync(st, st, s)
  {
  }

  /** Deleting the schedules of the syncs that part three has not found. */
  lemma OnlyGoneDeleted(st: Store, st': Store, full: bool, gone: seq<Id>)
    requires st' == st.(schedules := st'.schedules) && Lists(gone, st.syncChanges.Values - SyncsRead(st, full).Keys)
    requires forall s :: s in st'.schedules <==> s in st.schedules && s !in gone
    requires forall s :: s in st'.schedules ==> st'.schedules[s] == st.schedules[s]
    ensures forall s :: s in st'.rows || s !in st'.syncChanges.Values ==> SameSync(st, st', s)
    ensures forall s :: s !in st'.rows && s in st'.syncChanges.Values ==> s !in st'.schedules
  {
  }

  lemma SameSyncTwice(a: Store, b: Store, c: Store, s: Id)
    requires SameSync(a, b, s) && SameSync(b, c, s)
    ensures SameSync(a, c, s)
  {
  }

  lemma SettledLeaves(a: Store, b: Store, c: Store, s: Id, considered: set<Id>)
    requires SettledOnly(b, c, s) && s in considered && forall t :: t !in considered ==> SameSync(a, b, t)
    ensures forall t :: t !in considered ==> SameSync(a, c, t)
  {
    forall t | t !in considered ensures SameSync(a, c, t) {
      assert SameSync(a, b, t) && SameSync(b, c, t);
    }
  }

  lemma SettledKeeps(st: Store, st': Store, s: Id, t: Id)
    requires SettledOnly(st, st', s) && t in st.rows && Agrees(st, t) && s in st'.rows && Agrees(st', s)
    ensures t in st'.rows && Agrees(st', t)
  {
    assert t != s ==> SameSync(st, st', t);
    hide PeriodOf, StrategyOf;
  }

  lemma SettledKeepsAll(st: Store, st': Store, order: seq<Id>, i: nat)
    requires i < |order| && SettledOnly(st, st', order[i]) && order[i] in st'.rows && Agrees(st', order[i])
    requires forall j :: 0 <= j < i ==> order[j] in st.rows && Agrees(st, order[j])
    ensures forall j :: 0 <= j < i + 1 ==> order[j] in st'.rows && Agrees(st', order[j])
  {
    hide Agrees, SettledOnly;
    forall j | 0 <= j < i ensures order[j] in st'.rows && Agrees(st', order[j]) {
      SettledKeeps(st, st', order[i], order[j]);
    }
  }

  lemma AgreesAsBefore(st: Store, st': Store)
    requires st' == st.(syncChanges := st'.syncChanges)
    ensures forall s :: s in st.rows && Agrees(st, s) ==> Agrees(st', s)
  {
    hide PeriodOf, StrategyOf;
  }

  lemma PassIsKept(st: Store, st': Store, t: Task)
    requires Ids(st) && t.config.Some?
    requires st'.rows == Pass(st.rows, t.connection, t.config.value, t.args, st.next) && st.next <= st'.next
    requires st' == st.(rows := st'.rows, syncChanges := st'.syncChanges, next := st'.next)
    ensures Kept(st, st')
  {
    PassKeepsSurvivors(st.rows, t.connection, t.config.value, t.args, st.next);
    hide HasArg;
  }

  class SyncService {
    var store: Store
    ghost var worker: Worker

    constructor (st: Store)
      ensures store == st && worker == Idle
    {
      store, worker := st, Idle;
    }

    /** A query of the worker: only the worker's position changes. */
    ghost method Query(w: Worker)
      requires Inv(store, worker) && (QueryOne(store, worker, w) || QueryTwo(store, worker, w) || QueryThree(store, worker, w))
      modifies this`worker
      ensures worker == w && Inv(store, worker)
    {
      hide *;
      QueryStep(store, worker, w);
      worker := w;
    }

    /** An exception ends the run of the worker. */
    ghost method Stop()
      requires Inv(store, worker)
      modifies this`worker
      ensures worker == Idle && Inv(store, worker)
    {
      hide *;
      StopKeepsInv(store, worker);
      worker := Idle;
    }

    method LookUpConfigs(connections: map<ConnectionId, Connection>) returns (index: map<Id, Id>)
      ensures IndexFor(index, store.configs, connections)
    {
      var providers := set c | c in connections :: connections[c].provider;
      var relevant := map g | g in store.configs && store.configs[g].provider in providers :: store.configs[g];
      index := IndexByProvider(relevant);
      forall c | c in connections && connections[c].provider !in index
        ensures ConfigFor(store.configs, connections[c].provider, None)
      {
        assert connections[c].provider in providers;
        assert ConfigFor(relevant, connections[c].provider, None);
        forall g | g in store.configs ensures store.configs[g].provider != connections[c].provider {
          assert g in relevant ==> relevant[g] == store.configs[g];
        }
      }
    }

    method InsertSyncs(t: Task)
      requires Inv(store, worker) && Ids(store) && AtTask(worker, Create, t)
      requires t.config.Some? && Serves(store, t.config.value, t.connection)
      modifies this
      ensures Ids(old(store)) && store == CreateSyncs(old(store), t)
      ensures Inv(store, worker) && Ids(store) && old(worker).Reconciling?
      ensures worker == Reconciling(old(worker).full, old(worker).ids, old(worker).part, old(worker).todo, Change)
    {
      hide Inv, CreateMany;
      InsertStep(store, worker, t);
      worker := Reconciling(worker.full, worker.ids, worker.part, worker.todo, Change);
      if t.args != [] {
        store := store.(rows := CreateMany(store.rows, t.connection, t.config.value, t.args, store.next),
                        next := store.next + |t.args|);
      }
    }

    method RecordChanges(t: Task)
      requires Inv(store, worker) && Ids(store) && AtTask(worker, Change, t)
      modifies this
      ensures Ids(old(store)) && store == AddSyncChanges(old(store), t.connection)
      ensures Inv(store, worker) && old(worker).Reconciling?
      ensures worker == Reconciling(old(worker).full, old(worker).ids, old(worker).part, old(worker).todo, Delete)
    {
      hide Inv, AddChanges;
      RecordStep(store, worker, t);
      worker := Reconciling(worker.full, worker.ids, worker.part, worker.todo, Delete);
      store := store.(syncChanges := AddChanges(store.syncChanges, RowsOf(store.rows, t.connection), store.next),
                      next := store.next + store.next);
    }

    method RemoveSyncs(t: Task)
      requires Inv(store, worker) && AtTask(worker, Delete, t)
      modifies this
      ensures store == DeleteSyncs(old(store), t)
      ensures Inv(store, worker) && Ids(store) && old(worker).Reconciling? && old(worker).todo != []
      ensures worker == Reconciling(old(worker).full, old(worker).ids, old(worker).part, old(worker).todo[1..], Create)
    {
      hide Inv, Ids, DeleteUnwanted;
      RemoveStep(store, worker, t);
      worker := Reconciling(worker.full, worker.ids, worker.part, worker.todo[1..], Create);
      store := store.(rows := DeleteUnwanted(store.rows, t.connection, t.args));
      InvHasIds(store, worker);
    }

    /** The body of the loops of parts one and two: insert the missing syncs, record
        a change for every sync of the connection, delete the unwanted syncs. */
    method ReconcileConnection(t: Task) returns (ok: bool)
      requires Inv(store, worker) && Ids(store) && AtTask(worker, Create, t)
      requires t.config.Some? ==> Serves(store, t.config.value, t.connection)
      modifies this
      ensures ok <==> t.config.Some?
      ensures !ok ==> store == old(store) && worker == old(worker)
      ensures ok ==>
        && Inv(store, worker) && Ids(store) && Kept(old(store), store)
        && store.rows == Pass(old(store.rows), t.connection, t.config.value, t.args, old(store.next))
        && OnlyFor(old(store), store, {t.connection})
        && store == old(store).(rows := store.rows, syncChanges := store.syncChanges, next := store.next)
        && worker == Reconciling(old(worker).full, old(worker).ids, old(worker).part, old(worker).todo[1..], Create)
    {
      if t.config.None? {
        return false; // reading the missing config throws
      }
      hide Inv, Serves, AddChanges, CreateMany, Kept, OnlyFor;
      InsertSyncs(t);
      ghost var inserted := store;
      RecordChanges(t);
      RemoveSyncs(t);
      PassIsKept(old(store), store, t);
      PassIsOnlyFor(old(store), inserted, store, t);
      return true;
    }

    /** Part one: connections whose own sync config changed, or all of them. */
    method ProcessConnectionSyncConfigChanges(full: bool) returns (ok: bool)
      requires Inv(store, worker) && worker == Begin(full)
      modifies this
      ensures Inv(store, worker) && Kept(old(store), store)
      ensures OnlyFor(old(store), store, Considered(old(store), full).Keys)
      ensures ok <==> AllHaveConfigs(old(store), full)
      ensures !ok ==> worker == Idle
      ensures store.schedules == old(store).schedules
      ensures ok ==> worker == BeginTwo(full) && store.connectionChanges == map[] && store.configChanges == old(store.configChanges)
    {
      hide Inv, Ids, IndexFor, TaskOf, HasConfig, Pass, TasksOfConnections, AllHaveConfigs, Kept, OnlyFor;
      ghost var st := store;
      InvHasIds(store, worker);
      var ids, touched := store.connectionChanges.Keys, store.connectionChanges.Values;
      Query(ReadConnections(full, ids, touched));
      var connections := Considered(store, full);
      Query(ReadConfigs(full, ids, connections));
      var index := LookUpConfigs(connections);
      var order := InAnyOrder(connections.Keys);
      TasksAreRight(order, connections, store.configs, index);
      Query(Reconciling(full, ids, One, TasksOf(order, connections, store.configs, index), Create));
      AllConsidered(store, full, order);
      ok := ReconcileConnections(order, connections, index);
      if ok {
        FinishOne(store, worker);
        KeptTwice(st, store, store.(connectionChanges := store.connectionChanges - ids));
        SameTables(st, store, store.(connectionChanges := store.connectionChanges - ids), connections.Keys);
        store := store.(connectionChanges := store.connectionChanges - ids);
        worker := BeginTwo(full);
      } else {
        Stop();
      }
    }

    method ReconcileConnections(order: seq<ConnectionId>, connections: map<ConnectionId, Connection>, index: map<Id, Id>) returns (ok: bool)
      requires Inv(store, worker) && Ids(store) && worker.Reconciling? && worker.part == One && worker.stage == Create
      requires Lists(order, connections.Keys) && IndexFor(index, store.configs, connections)
      requires forall c :: c in connections ==> c in store.connections && connections[c] == store.connections[c]
      requires worker.todo == TasksOf(order, connections, store.configs, index)
      modifies this
      ensures Inv(store, worker) && Ids(store) && Kept(old(store), store)
      ensures store == old(store).(rows := store.rows, syncChanges := store.syncChanges, next := store.next)
      ensures OnlyFor(old(store), store, connections.Keys)
      ensures ok <==> forall j :: 0 <= j < |order| ==> HasConfig(old(store), order[j])
      ensures ok ==> old(worker).Reconciling? && worker == Reconciling(old(worker).full, old(worker).ids, One, [], Create)
    {
      hide Inv, Ids, TaskOf, HasConfig, Pass, Kept, Serves, OnlyFor;
      ghost var st, w := store, worker;
      var configs := store.configs;
      KeptOnce(st);
      OnlyForNone(st, connections.Keys);
      for i := 0 to |order|
        invariant Inv(store, worker) && Ids(store) && Kept(st, store) && OnlyFor(st, store, connections.Keys)
        invariant store == st.(rows := store.rows, syncChanges := store.syncChanges, next := store.next)
        invariant worker == Reconciling(w.full, w.ids, One, w.todo[i..], Create)
        invariant forall j :: 0 <= j < i ==> HasConfig(st, order[j])
      {
        assert order[i] in order;
        var t := TaskOf(order[i], connections[order[i]], configs, index);
        assert t.connection == order[i] && (t.config.Some? <==> HasConfig(st, order[i])) && (t.config.Some? ==> Serves(store, t.config.value, order[i])) by {
          TaskHasConfig(st, order[i], connections, index);
          ServesStays(st, store);
        }
        ghost var before := store;
        ok := ReconcileConnection(t);
        assert Kept(st, store) && OnlyFor(st, store, connections.Keys) by {
          if ok {
            KeptTwice(st, before, store);
            OnlyForNext(st, before, store, connections.Keys, order[i]);
          }
        }
        if !ok {
          return;
        }
      }
      ok := true;
    }

    /** Part two, for one config: the connections of its provider. */
    method ReconcileConfig(g: Id, config: SyncConfig)
      requires Inv(store, worker) && Ids(store) && g in store.configs && store.configs[g] == config
      requires worker.Reconciling? && worker.part.Two? && worker.todo == [] && worker.stage == Create
      requires worker.part.rest != [] && worker.part.rest[0] == g && g in worker.part.configs && worker.part.configs[g] == config
      modifies this
      ensures Inv(store, worker) && Ids(store) && Kept(old(store), store)
      ensures store == old(store).(rows := store.rows, syncChanges := store.syncChanges, next := store.next)
      ensures OnlyFor(old(store), store, Under(old(store), {g}))
      ensures old(worker).Reconciling? && old(worker).part.Two? && old(worker).part.rest != []
      ensures worker == Reconciling(old(worker).full, old(worker).ids, Two(old(worker).part.rest[1..], old(worker).part.configs), [], Create)
    {
      hide Inv, Ids, Kept, Desired, OnlyFor;
      ghost var w := worker;
      var connections := map c | c in store.connections && store.connections[c].provider == config.provider :: store.connections[c];
      var order := InAnyOrder(connections.Keys);
      ConfigTasksAreRight(order, g, config, connections, store.connections);
      Query(Reconciling(w.full, w.ids, Two(w.part.rest[1..], w.part.configs), ConfigTasks(order, g, config, connections), Create));
      forall j | 0 <= j < |order| ensures Serves(store, g, order[j]) && order[j] in Under(store, {g}) {
        assert order[j] in order;
      }
      hide TasksOfConfig, Under, Serves;
      ReconcileTasks(order, g, config, connections, Under(store, {g}));
    }

    method ReconcileTasks(order: seq<ConnectionId>, g: Id, config: SyncConfig, connections: map<ConnectionId, Connection>, ghost cs: set<ConnectionId>)
      requires Inv(store, worker) && Ids(store) && worker.Reconciling? && worker.stage == Create && Lists(order, connections.Keys)
      requires worker.todo == ConfigTasks(order, g, config, connections)
      requires forall j :: 0 <= j < |order| ==> Serves(store, g, order[j]) && order[j] in cs
      modifies this
      ensures Inv(store, worker) && Ids(store) && Kept(old(store), store) && OnlyFor(old(store), store, cs)
      ensures store == old(store).(rows := store.rows, syncChanges := store.syncChanges, next := store.next)
      ensures old(worker).Reconciling? && worker == Reconciling(old(worker).full, old(worker).ids, old(worker).part, [], Create)
    {
      hide Inv, Ids, Pass, Kept, Desired, OnlyFor, Serves;
      ghost var st, w := store, worker;
      KeptOnce(st);
      OnlyForNone(st, cs);
      for i := 0 to |order|
        invariant Inv(store, worker) && Ids(store) && Kept(st, store) && OnlyFor(st, store, cs)
        invariant store == st.(rows := store.rows, syncChanges := store.syncChanges, next := store.next)
        invariant worker == Reconciling(w.full, w.ids, w.part, w.todo[i..], Create)
      {
        ghost var before := store;
        assert order[i] in order;
        ServesStays(st, store);
        var ok := ReconcileConnection(Task(order[i], Some(g), Desired(config.data, connections[order[i]].override)));
        KeptTwice(st, before, store);
        OnlyForNext(st, before, store, cs, order[i]);
      }
    }

    /** Part two: configs that changed, or all of them. */
    method ProcessSyncConfigChanges(full: bool)
      requires Inv(store, worker) && worker == BeginTwo(full)
      modifies this
      ensures Inv(store, worker) && Kept(old(store), store)
      ensures OnlyFor(old(store), store, Under(old(store), ConfigsRead(old(store), full).Keys))
      ensures worker == BeginThree(full) && store.schedules == old(store).schedules
      ensures store.configChanges == map[] && store.connectionChanges == old(store.connectionChanges)
    {
      hide Inv, Ids, Kept, OnlyFor, Under;
      ghost var st := store;
      InvHasIds(store, worker);
      var ids, touched := store.configChanges.Keys, store.configChanges.Values;
      Query(ReadTouchedConfigs(full, ids, touched));
      var configs := ConfigsRead(store, full);
      var order := InAnyOrder(configs.Keys);
      Query(Reconciling(full, ids, Two(order, configs), [], Create));
      KeptOnce(st);
      OnlyForNone(st, Under(st, configs.Keys));
      for i := 0 to |order|
        invariant Inv(store, worker) && Ids(store) && Kept(st, store) && OnlyFor(st, store, Under(st, configs.Keys))
        invariant store == st.(rows := store.rows, syncChanges := store.syncChanges, next := store.next)
        invariant worker == Reconciling(full, ids, Two(order[i..], configs), [], Create)
      {
        ghost var before := store;
        assert order[i] in order;
        ReconcileConfig(order[i], configs[order[i]]);
        KeptTwice(st, before, store);
        UnderFewer(st, before, order[i], configs.Keys);
        OnlyForMore(before, store, Under(before, {order[i]}), Under(st, configs.Keys));
        OnlyForAgain(st, before, store, Under(st, configs.Keys));
      }
      FinishTwo(store, worker);
      KeptTwice(st, store, store.(configChanges := store.configChanges - ids));
      SameTables(st, store, store.(configChanges := store.configChanges - ids), Under(st, configs.Keys));
      store := store.(configChanges := store.configChanges - ids);
      worker := BeginThree(full);
    }

    /** Pause the schedules of the syncs that are gone. */
    method PauseTemporalSyncs(gone: seq<Id>)
      requires Inv(store, worker) && Ids(store) && worker.Pausing? && worker.gone == worker.left == gone
      modifies this
      ensures Inv(store, worker) && Ids(store) && Kept(old(store), store) && store == old(store).(schedules := store.schedules)
      ensures old(worker).Pausing? && worker == Pausing(old(worker).full, old(worker).ids, old(worker).plan, gone, [])
      ensures store.schedules.Keys == old(store).schedules.Keys
      ensures forall s :: s in store.schedules ==>
        store.schedules[s] == if s in gone then old(store).schedules[s].(paused := true) else old(store).schedules[s]
    {
      hide Inv, Ids, Kept;
      ghost var st, w := store, worker;
      KeptOnce(st);
      for i := 0 to |gone|
        invariant Inv(store, worker) && Ids(store) && Kept(st, store) && store == st.(schedules := store.schedules)
        invariant worker == Pausing(w.full, w.ids, w.plan, gone, gone[i..])
        invariant store.schedules.Keys == st.schedules.Keys
        invariant forall s :: s in store.schedules ==>
                    store.schedules[s] == if s in gone[..i] then st.schedules[s].(paused := true) else st.schedules[s]
      {
        assert gone[..i + 1] == gone[..i] + [gone[i]];
        PauseStep(store, worker);
        KeptTwice(st, store, PauseSchedule(store, gone[i]));
        worker := Pausing(w.full, w.ids, w.plan, gone, gone[i + 1..]);
        if gone[i] in store.schedules {
          store := store.(schedules := store.schedules[gone[i] := store.schedules[gone[i]].(paused := true)]);
        }
        InvHasIds(store, worker);
      }
      assert gone[..|gone|] == gone;
    }

    /** Pause the schedules of the syncs that are gone, then delete them. */
    method DeleteTemporalSyncs(gone: seq<Id>)
      requires Inv(store, worker) && Ids(store) && worker.Pausing? && worker.gone == worker.left == gone
      modifies this
      ensures Inv(store, worker) && Ids(store) && Kept(old(store), store) && store == old(store).(schedules := store.schedules)
      ensures old(worker).Pausing? && worker == Deleting(old(worker).full, old(worker).ids, old(worker).plan, [])
      ensures forall s :: s in store.schedules <==> s in old(store).schedules && s !in gone
      ensures forall s :: s in store.schedules ==> store.schedules[s] == old(store).schedules[s]
    {
      hide Inv, Ids, Kept;
      ghost var w := worker;
      PauseTemporalSyncs(gone);
      ghost var st := store;
      Query(Deleting(w.full, w.ids, w.plan, gone));
      for i := 0 to |gone|
        invariant Inv(store, worker) && Ids(store) && Kept(old(store), store) && store == st.(schedules := store.schedules)
        invariant worker == Deleting(w.full, w.ids, w.plan, gone[i..])
        invariant forall s :: s in store.schedules <==> s in st.schedules && s !in gone[..i]
        invariant forall s :: s in store.schedules ==> store.schedules[s] == st.schedules[s]
      {
        assert gone[..i + 1] == gone[..i] + [gone[i]];
        DeleteScheduleStep(store, worker);
        KeptTwice(old(store), store, DeleteSchedule(store, gone[i]));
        worker := Deleting(w.full, w.ids, w.plan, gone[i + 1..]);
        store := store.(schedules := store.schedules - {gone[i]});
        InvHasIds(store, worker);
      }
      assert gone[..|gone|] == gone;
    }

    /** Create the schedule of a sync, or update it if it is already there. */
    method UpsertTemporalSync(s: Id, row: SyncRow, syncPeriodMs: Period)
      modifies this`store
      ensures store == old(store).(schedules := UpsertSchedule(old(store).schedules, s, row, syncPeriodMs))
    {
      var interval := (syncPeriodMs, StringToNumber(row.connection, syncPeriodMs));
      if s !in store.schedules {
        store := store.(schedules := store.schedules[s := Schedule(row.connection, row.paused, interval.0, interval.1)]);
      } else {
        var prev := store.schedules[s];
        var newInterval := if prev.every == syncPeriodMs then (prev.every, prev.offset) else interval;
        store := store.(schedules := store.schedules[s := Schedule(row.connection, row.paused, newInterval.0, newInterval.1)]);
      }
    }

    /** Read the syncs that changed, or all of them, with their connections and configs,
        and delete the schedules of those that are gone. */
    method ReadSyncs(full: bool) returns (plan: Plan, ids: set<Id>)
      requires Inv(store, worker) && worker == BeginThree(full)
      modifies this
      ensures Inv(store, worker) && Ids(store) && Kept(old(store), store) && store == old(store).(schedules := store.schedules)
      ensures worker == Deleting(full, ids, plan, []) && ids == store.syncChanges.Keys
      ensures plan == Plan(SyncsRead(store, full), store.connections.Keys, store.configs)
      ensures forall s :: s in store.rows || s !in store.syncChanges.Values ==> SameSync(old(store), store, s)
      ensures forall s :: s !in store.rows && s in store.syncChanges.Values ==> s !in store.schedules
    {
      hide Inv, Ids, Kept, SameSync;
      InvHasIds(store, worker);
      ids := store.syncChanges.Keys;
      var touched := store.syncChanges.Values;
      Query(ReadRows(full, ids, touched));
      var rows := SyncsRead(store, full);
      Query(ReadRowConnections(full, ids, touched, rows));
      var connections := store.connections.Keys;
      Query(ReadRowConfigs(full, ids, touched, rows, connections));
      plan := Plan(rows, connections, store.configs);
      var syncIdsToDelete := InAnyOrder(touched - rows.Keys);
      Query(Pausing(full, ids, plan, syncIdsToDelete, syncIdsToDelete));
      hide SyncsRead;
      DeleteTemporalSyncs(syncIdsToDelete);
      OnlyGoneDeleted(old(store), store, full, syncIdsToDelete);
    }

    /** Part three: syncs that changed, or all of them. */
    method ProcessSyncRowChanges(full: bool)
      requires Inv(store, worker) && worker == BeginThree(full)
      modifies this
      ensures Inv(store, worker) && Kept(old(store), store)
      ensures worker == if full then ClearFlag else Idle
      ensures store.syncChanges == map[]
      ensures store.configChanges == old(store.configChanges) && store.connectionChanges == old(store.connectionChanges)
      ensures store.rows.Keys == old(store).rows.Keys
      ensures forall s :: s in store.rows && (full || s in old(store).syncChanges.Values) ==> Agrees(store, s)
      ensures forall s :: s !in store.rows && s in old(store).syncChanges.Values ==> s !in store.schedules
      ensures forall s :: !(full && s in store.rows) && s !in old(store).syncChanges.Values ==> SameSync(old(store), store, s)
    {
      hide Inv, Ids, Kept, Agrees;
      ghost var st := store;
      InvHasIds(store, worker);
      var plan, ids := ReadSyncs(full);
      RowsAreServed(store, worker);
      ghost var st1 := store;
      UpsertAll(plan);
      KeptTwice(st, st1, store);
      InvHasIds(store, worker);
      FinishThree(store, worker);
      KeptTwice(st, store, store.(syncChanges := store.syncChanges - ids));
      ghost var st2 := store;
      store := store.(syncChanges := store.syncChanges - ids);
      AgreesAsBefore(st2, store);
      worker := if full then ClearFlag else Idle;
    }

    /** Store the configured strategy of every sync read, and upsert its schedule. */
    method UpsertAll(plan: Plan)
      requires Inv(store, worker) && Ids(store) && worker.Deleting? && worker.left == [] && worker.plan == plan
      requires plan.configs == store.configs && forall s :: s in plan.rows ==> s in store.rows && plan.rows[s] == store.rows[s]
      requires forall s :: s in plan.rows ==> plan.rows[s].connection in plan.connections && plan.rows[s].config in plan.configs
      modifies this
      ensures Inv(store, worker) && Ids(store) && Kept(old(store), store)
      ensures store == old(store).(rows := store.rows, schedules := store.schedules) && store.rows.Keys == old(store).rows.Keys
      ensures old(worker).Deleting? && worker == Upserting(old(worker).full, old(worker).ids, plan, [])
      ensures forall s :: s in plan.rows ==> Agrees(store, s)
      ensures forall s :: s !in plan.rows ==> SameSync(old(store), store, s)
    {
      hide Inv, Ids, Kept, Agrees, SettledOnly, SameSync;
      ghost var st, w := store, worker;
      var order := InAnyOrder(plan.rows.Keys);
      Query(Upserting(w.full, w.ids, plan, order));
      KeptOnce(st);
      assert forall s :: SameSync(st, store, s) by { SameAtFirst(st); }
      for i := 0 to |order|
        invariant Inv(store, worker) && Ids(store) && Kept(st, store)
        invariant store == st.(rows := store.rows, schedules := store.schedules) && store.rows.Keys == st.rows.Keys
        invariant worker == Upserting(w.full, w.ids, plan, order[i..])
        invariant forall j :: 0 <= j < i ==> order[j] in store.rows && Agrees(store, order[j])
        invariant forall s :: s !in plan.rows ==> SameSync(st, store, s)
      {
        assert order[i] in order;
        ghost var before := store;
        assert store.rows[order[i]].(strategy := st.rows[order[i]].strategy) == st.rows[order[i]] by { KeptRow(st, store, order[i]); }
        UpsertOne(st, order[i], plan);
        SettledKeepsAll(before, store, order, i);
        SettledLeaves(st, before, store, order[i], plan.rows.Keys);
      }
      forall s | s in plan.rows ensures Agrees(store, s) {
        assert s in order;
      }
    }

    method UpsertOne(ghost st: Store, s: Id, plan: Plan)
      requires Inv(store, worker) && Ids(store) && Ids(st) && Kept(st, store)
      requires worker.Upserting? && worker.plan == plan && Planned(worker, s) && s in store.rows
      requires plan.configs == store.configs && store.rows[s].(strategy := plan.rows[s].strategy) == plan.rows[s]
      modifies this
      ensures s in store.rows && Agrees(store, s) && SettledOnly(old(store), store, s)
      ensures Inv(store, worker) && Ids(store) && Kept(st, store)
      ensures store == old(store).(rows := store.rows, schedules := store.schedules) && store.rows.Keys == old(store).rows.Keys
      ensures old(worker).Upserting? && old(worker).left != []
      ensures worker == Upserting(old(worker).full, old(worker).ids, plan, old(worker).left[1..])
    {
      hide Inv, Ids, Kept, UpsertSchedule, StrategyOf, PeriodOf, Agrees, SettledOnly;
      // The connection and the config of the sync are found: no exception here.
      assert plan.rows[s].connection in plan.connections && plan.rows[s].config in plan.configs;
      var row, data := plan.rows[s], plan.configs[plan.rows[s].config].data;
      StrategyStep(store, worker, s);
      KeptTwice(st, store, StoreStrategy(store, s, StrategyOf(data, row.key)));
      worker := Scheduling(worker.full, worker.ids, worker.plan, worker.left);
      store := store.(rows := store.rows[s := store.rows[s].(strategy := StrategyOf(data, row.key))]);
      InvHasIds(store, worker);
      ghost var before := store;
      UpsertStep(store, worker, s);
      worker := Upserting(worker.full, worker.ids, worker.plan, worker.left[1..]);
      UpsertTemporalSync(s, row, PeriodOf(data, row.key));
      KeptTwice(st, before, store);
      InvHasIds(store, worker);
      UpsertSettles(old(store), store, s, row);
    }

    method ProcessSyncChanges(full: bool) returns (ok: bool)
      requires Inv(store, worker) && worker == Begin(full)
      modifies this
      ensures Inv(store, worker) && Kept(old(store), store)
      ensures ok <==> AllHaveConfigs(old(store), full)
      ensures !ok ==> worker == Idle
      ensures ok ==> worker == if full then ClearFlag else Idle
      ensures ok ==> store.connectionChanges == map[] && store.configChanges == map[] && store.syncChanges == map[]
      ensures ok && !full ==> forall s :: s in old(store).rows && !AnyEvent(old(store), s) ==> SameSync(old(store), store, s)
    {
      assert Tables(store);
      hide Inv, Kept, AllHaveConfigs, OnlyFor, Tables, AnyEvent, SameSync;
      ghost var st := store;
      InvHasIds(store, worker);
      ok := ProcessConnectionSyncConfigChanges(full);
      if ok {
        InvHasIds(store, worker);
        ghost var st1 := store;
        ProcessSyncConfigChanges(full);
        InvHasIds(store, worker);
        KeptTwice(st, st1, store);
        ghost var st2 := store;
        ProcessSyncRowChanges(full);
        KeptTwice(st, st2, store);
        if !full {
          forall s | s in st.rows && !AnyEvent(st, s) ensures SameSync(st, store, s) {
            PassedOver(st, st1, st2, s);
            SameSyncTwice(st, st2, store, s);
          }
        }
      }
    }

    /** One uninterrupted activity with no writer in between. It throws exactly when
        a connection it considers has no config, leaving the flag and the invariant
        intact for the retry; otherwise it empties the queues, clears the flag if it
        was set, and leaves rows, schedules and configs in line. */
    method DoProcessSyncChanges() returns (ok: bool)
      requires Inv(store, worker) && worker == Idle
      modifies this
      ensures Inv(store, worker) && worker == Idle
      ensures ok <==> AllHaveConfigs(old(store), old(store).full)
      ensures !ok ==> Kept(old(store), store)
      ensures ok ==> QueuesEmpty(store) && Converged(store) && Kept(old(store).(full := false), store)
      ensures ok && !old(store).full ==> forall s :: s in old(store).rows && !AnyEvent(old(store), s) ==> SameSync(old(store), store, s)
    {
      hide Inv, AllHaveConfigs, Converged, AnyEvent, SameSync;
      var full := store.full;
      Query(Begin(full));
      ok := ProcessSyncChanges(full);
      if ok {
        if full {
          FinishFlag(store);
          store := store.(full := false);
          worker := Idle;
        }
        NothingRecordedIsConverged(store);
      }
    }
  }
}
