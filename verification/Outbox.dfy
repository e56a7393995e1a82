/** The outbox protocol between the API, which changes rows and records change
    events, and the worker that turns the events into syncs and schedules. Every
    query and every write of the worker is one step; writers, and failures of the
    worker, come in between. */
module Outbox {
  import opened StringHash
  import opened SyncTypes
  import opened Reconcile

  datatype Store = Store(
    connections: map<ConnectionId, Connection>,
    seen: set<ConnectionId>, // connection ids ever used
    configs: map<Id, SyncConfig>,
    rows: map<Id, SyncRow>,
    connectionChanges: map<Id, ConnectionId>,
    configChanges: map<Id, Id>,
    syncChanges: map<Id, Id>,
    full: bool, // processSyncChangesFull
    schedules: map<Id, Schedule>,
    next: Id) // every id handed out so far is below

  // ---- Schedules

  function Find(objects: seq<ObjectConfig>, name: string): Option<ObjectConfig> {
    if objects == [] then None
    else if objects[0].name == name then Some(objects[0])
    else Find(objects[1..], name)
  }

  function ObjectsOf(data: ConfigData, objectType: ObjectType): seq<ObjectConfig> {
    match objectType
    case Common => data.commonObjects
    case Standard => data.standardObjects
    case Custom => data.customObjects
  }

  function StrategyConfigOf(data: ConfigData, key: SyncKey): StrategyConfig {
    match key
    case EntityKey(_) => data.defaultConfig
    case ObjectKey(objectType, name) =>
      var o := Find(ObjectsOf(data, objectType), name);
      if o.Some? && o.value.syncStrategyOverride.Some? then o.value.syncStrategyOverride.value else data.defaultConfig
  }

  function PeriodOf(data: ConfigData, key: SyncKey): Period {
    var p := StrategyConfigOf(data, key).periodMs;
    if p.Some? then p.value else FIFTEEN_MINUTES_MS
  }

  function StrategyOf(data: ConfigData, key: SyncKey): Strategy {
    var c := StrategyConfigOf(data, key);
    Strategy(if c.strategy.Some? then c.strategy.value else FullThenIncremental, c.fullSyncEveryNIncrementals)
  }

  /** Create the schedule, or update it and keep the interval when the period is
      still the same. */
  function UpsertSchedule(schedules: map<Id, Schedule>, s: Id, row: SyncRow, every: Period): map<Id, Schedule> {
    var offset := StringToNumber(row.connection, every);
    if s in schedules && schedules[s].every == every
    then schedules[s := Schedule(row.connection, row.paused, every, schedules[s].offset)]
    else schedules[s := Schedule(row.connection, row.paused, every, offset)]
  }

  // ---- Writers

  datatype Write =
    | CreateConnection(c: ConnectionId, customer: Id, provider: Id, config: Option<Id>, paused: bool)
    | UpsertConnection(c: ConnectionId, customer: Id, provider: Id) // with no syncs and no event
    | DeleteConnection(c: ConnectionId)
    | SetConnectionSyncConfig(c: ConnectionId, override: Option<ConnectionSyncConfig>)
    | CreateConfig(provider: Id, data: ConfigData)
    | UpdateConfig(g: Id, data: ConfigData)
    | DeleteConfig(g: Id)
    | SetPaused(s: Id, paused: bool)
    | SetRunState(s: Id, state: SyncState, performFullRefresh: bool)
    | RequestFull
    | Tamper(s: Id, byHand: Option<bool>) // by hand: delete or (un)pause a schedule, then request a full pass
    | CascadeDelete(gone: set<ConnectionId>, goneConfigs: set<Id>, entities: set<string>) // of a customer, provider, entity, ...

  /** A customer has one connection to a provider, as the table's index demands. */
  predicate Connected(connections: map<ConnectionId, Connection>, customer: Id, provider: Id) {
    exists c :: c in connections && connections[c].customer == customer && connections[c].provider == provider
  }

  /** The config of a provider is unique, as the table's index demands. */
  ghost predicate ConfigFor(configs: map<Id, SyncConfig>, provider: Id, config: Option<Id>) {
    match config
    case Some(g) => g in configs && configs[g].provider == provider
    case None => forall g :: g in configs ==> configs[g].provider != provider
  }

  /** A new connection gets the syncs of the provider's config, with the default
      strategy. */
  function ConnectionArgs(data: ConfigData, paused: bool): (r: seq<SyncArgs>)
    ensures forall k :: HasArg(r, k) <==> HasArg(Desired(data, None), k)
  {
    var d := Desired(data, None);
    var strategy := if data.defaultConfig.strategy.Some? then data.defaultConfig.strategy.value else FullThenIncremental;
    var r := seq(|d|, i requires 0 <= i < |d| => SyncArgs(d[i].key, paused, Strategy(strategy, None)));
    assert forall i :: 0 <= i < |d| ==> r[i].key == d[i].key && r[i] in r && d[i] in d;
    r
  }

  ghost predicate DistinctKeys(args: seq<SyncArgs>) {
    forall i, j :: 0 <= i < j < |args| ==> args[i].key != args[j].key
  }

  function RowsOfConfig(rows: map<Id, SyncRow>, g: Id): set<Id> {
    set s | s in rows && rows[s].config == g
  }

  /** Foreign keys with cascading deletion: the sync goes with its connection, its
      config or its entity. */
  predicate Cascades(row: SyncRow, gone: set<ConnectionId>, goneConfigs: set<Id>, entities: set<string>) {
    row.connection in gone || row.config in goneConfigs || (row.key.EntityKey? && row.key.entityId in entities)
  }

  /** The connection is there, its syncs are not. */
  function WithConnection(st: Store, c: ConnectionId, customer: Id, provider: Id): Store {
    st.(connections := st.connections[c := Connection(customer, provider, None)], seen := st.seen + {c})
  }

  ghost predicate Enabled(st: Store, a: Write) {
    match a
    case CreateConnection(c, customer, provider, config, _) =>
      && c !in st.seen && !Connected(st.connections, customer, provider) && ConfigFor(st.configs, provider, config)
      && (config.Some? ==> DistinctKeys(Desired(st.configs[config.value].data, None))) // or the transaction fails
    case UpsertConnection(c, _, _) => c !in st.seen
    case DeleteConnection(c) => c in st.connections
    case SetConnectionSyncConfig(c, _) => c in st.connections
    case CreateConfig(provider, _) => ConfigFor(st.configs, provider, None)
    case UpdateConfig(g, _) => g in st.configs
    case DeleteConfig(g) => g in st.configs
    case SetPaused(s, _) => s in st.rows
    case SetRunState(s, _, _) => s in st.rows
    case RequestFull => true
    case Tamper(s, _) => s in st.rows
    case CascadeDelete(gone, goneConfigs, _) => gone <= st.connections.Keys && goneConfigs <= st.configs.Keys
  }

  ghost predicate Ids(st: Store) {
    && (forall s :: s in st.rows ==> s < st.next)
    && (forall e :: e in st.connectionChanges ==> e < st.next && st.connectionChanges[e] in st.seen)
    && (forall e :: e in st.configChanges ==> e < st.next)
    && (forall e :: e in st.syncChanges ==> e < st.next && st.syncChanges[e] < st.next)
    && (forall g :: g in st.configs ==> g < st.next)
    && (forall s :: s in st.schedules ==> s < st.next)
    && st.connections.Keys <= st.seen
  }

  ghost function Apply(st: Store, a: Write): Store
    requires Ids(st) && Enabled(st, a)
  {
    match a
    case CreateConnection(c, customer, provider, config, paused) =>
      var st1 := WithConnection(st, c, customer, provider);
      if config == None then st1
      else
        var args := ConnectionArgs(st.configs[config.value].data, paused);
        AddSyncChanges(CreateSyncs(st1, Task(c, config, args)), c)
    case UpsertConnection(c, customer, provider) =>
      if Connected(st.connections, customer, provider) then st // credentials are not modelled
      else WithConnection(st, c, customer, provider)
    case DeleteConnection(c) =>
      st.(connections := st.connections - {c},
          rows := map s | s in st.rows && st.rows[s].connection != c :: st.rows[s],
          syncChanges := AddChanges(st.syncChanges, RowsOf(st.rows, c), st.next),
          next := st.next + st.next)
    case SetConnectionSyncConfig(c, override) =>
      st.(connections := st.connections[c := st.connections[c].(override := override)],
          connectionChanges := st.connectionChanges[st.next := c],
          next := st.next + 1)
    case CreateConfig(provider, data) =>
      st.(configs := st.configs[st.next := SyncConfig(provider, data)],
          configChanges := st.configChanges[st.next + 1 := st.next],
          next := st.next + 2)
    case UpdateConfig(g, data) =>
      st.(configs := st.configs[g := st.configs[g].(data := data)],
          configChanges := st.configChanges[st.next := g],
          next := st.next + 1)
    case DeleteConfig(g) =>
      st.(configs := st.configs - {g},
          rows := map s | s in st.rows && st.rows[s].config != g :: st.rows[s],
          syncChanges := AddChanges(st.syncChanges, RowsOfConfig(st.rows, g), st.next),
          configChanges := st.configChanges[st.next + st.next := g],
          next := st.next + st.next + 1)
    case SetPaused(s, paused) =>
      st.(rows := st.rows[s := st.rows[s].(paused := paused)],
          syncChanges := st.syncChanges[st.next := s],
          next := st.next + 1)
    case SetRunState(s, state, force) =>
      st.(rows := st.rows[s := st.rows[s].(state := state, performFullRefresh := force)])
    case RequestFull =>
      st.(full := true)
    case Tamper(s, paused) =>
      var schedules :=
        if s !in st.schedules then st.schedules
        else if paused.Some? then st.schedules[s := st.schedules[s].(paused := paused.value)]
        else st.schedules - {s};
      st.(schedules := schedules, full := true)
    case CascadeDelete(gone, goneConfigs, entities) => // no event is recorded
      st.(connections := st.connections - gone,
          configs := st.configs - goneConfigs,
          rows := map s | s in st.rows && !Cascades(st.rows[s], gone, goneConfigs, entities) :: st.rows[s])
  }

  // ---- The worker

  /** One connection to reconcile, as read from the tables: the config of its
      provider, if any, and the syncs it should have. */
  datatype Task = Task(connection: ConnectionId, config: Option<Id>, args: seq<SyncArgs>)

  datatype Part = One | Two(rest: seq<Id>, configs: map<Id, SyncConfig>)
  datatype Stage = Create | Change | Delete
  datatype Plan = Plan(rows: map<Id, SyncRow>, connections: set<ConnectionId>, configs: map<Id, SyncConfig>)

  /** Where the worker is: `ids` are the change events it read at the start of
      the current part, the other fields what it has read or still has to do. */
  datatype Worker =
    | Idle
    | Begin(full: bool)
    | ReadConnections(full: bool, ids: set<Id>, touchedConnections: set<ConnectionId>)
    | ReadConfigs(full: bool, ids: set<Id>, connections: map<ConnectionId, Connection>)
    | Reconciling(full: bool, ids: set<Id>, part: Part, todo: seq<Task>, stage: Stage)
    | BeginTwo(full: bool)
    | ReadTouchedConfigs(full: bool, ids: set<Id>, touchedConfigs: set<Id>)
    | BeginThree(full: bool)
    | ReadRows(full: bool, ids: set<Id>, touched: set<Id>)
    | ReadRowConnections(full: bool, ids: set<Id>, touched: set<Id>, rows: map<Id, SyncRow>)
    | ReadRowConfigs(full: bool, ids: set<Id>, touched: set<Id>, rows: map<Id, SyncRow>, rowConnections: set<ConnectionId>)
    | Pausing(full: bool, ids: set<Id>, plan: Plan, gone: seq<Id>, left: seq<Id>)
    | Deleting(full: bool, ids: set<Id>, plan: Plan, left: seq<Id>)
    | Upserting(full: bool, ids: set<Id>, plan: Plan, left: seq<Id>)
    | Scheduling(full: bool, ids: set<Id>, plan: Plan, left: seq<Id>)
    | ClearFlag

  predicate IsFull(w: Worker) {
    match w
    case Idle => false
    case ClearFlag => true
    case _ => w.full
  }

  ghost predicate TaskFor(t: Task, connection: Connection, configs: map<Id, SyncConfig>) {
    && ConfigFor(configs, connection.provider, t.config)
    && t.args == if t.config.Some? then Desired(configs[t.config.value].data, connection.override) else []
  }

  /** The tasks of part one: one for every connection read, in any order. */
  ghost predicate TasksOfConnections(todo: seq<Task>, connections: map<ConnectionId, Connection>, configs: map<Id, SyncConfig>) {
    && (forall t :: t in todo ==> t.connection in connections && TaskFor(t, connections[t.connection], configs))
    && (forall c :: c in connections ==> Listed(todo, c))
  }

  /** The tasks of part two for one config: the connections of its provider. */
  ghost predicate TasksOfConfig(todo: seq<Task>, g: Id, config: SyncConfig, connections: map<ConnectionId, Connection>) {
    && (forall t :: t in todo ==>
          && t.connection in connections && connections[t.connection].provider == config.provider
          && t.config == Some(g) && t.args == Desired(config.data, connections[t.connection].override))
    && (forall c :: c in connections && connections[c].provider == config.provider ==> Listed(todo, c))
  }

  ghost predicate Listed(todo: seq<Task>, c: ConnectionId) {
    exists t :: t in todo && t.connection == c
  }

  function CreateSyncs(st: Store, t: Task): Store
    requires t.config.Some? && forall s :: s in st.rows ==> s < st.next
  {
    st.(rows := CreateMany(st.rows, t.connection, t.config.value, t.args, st.next), next := st.next + |t.args|)
  }

  /** Foreign keys: rows are only inserted under an existing connection and config. */
  predicate CanCreate(st: Store, t: Task)
    requires t.config.Some? && forall s :: s in st.rows ==> s < st.next
  {
    CreateSyncs(st, t).rows == st.rows || (t.config.value in st.configs && t.connection in st.connections)
  }

  function AddSyncChanges(st: Store, c: ConnectionId): Store
    requires forall s :: s in st.rows ==> s < st.next
    requires forall e :: e in st.syncChanges ==> e < st.next
  {
    st.(syncChanges := AddChanges(st.syncChanges, RowsOf(st.rows, c), st.next), next := st.next + st.next)
  }

  function DeleteSyncs(st: Store, t: Task): Store {
    st.(rows := DeleteUnwanted(st.rows, t.connection, t.args))
  }

  function PauseSchedule(st: Store, s: Id): Store {
    if s in st.schedules then st.(schedules := st.schedules[s := st.schedules[s].(paused := true)]) else st
  }

  function DeleteSchedule(st: Store, s: Id): Store {
    st.(schedules := st.schedules - {s})
  }

  function StoreStrategy(st: Store, s: Id, strategy: Strategy): Store
    requires s in st.rows
  {
    st.(rows := st.rows[s := st.rows[s].(strategy := strategy)])
  }

  // The worker's queries, part by part: the store is only read.

  ghost predicate QueryOne(st: Store, w: Worker, w': Worker) {
    match w
    case Idle => w' == Begin(st.full)
    case Begin(full) =>
      w' == ReadConnections(full, st.connectionChanges.Keys, st.connectionChanges.Values)
    case ReadConnections(full, ids, touched) =>
      w' == ReadConfigs(full, ids, if full then st.connections else map c | c in st.connections && c in touched :: st.connections[c])
    case ReadConfigs(full, ids, connections) =>
      && w'.Reconciling? && w' == Reconciling(full, ids, One, w'.todo, Create)
      && TasksOfConnections(w'.todo, connections, st.configs)
    case _ => false
  }

  ghost predicate QueryTwo(st: Store, w: Worker, w': Worker) {
    match w
    case BeginTwo(full) =>
      w' == ReadTouchedConfigs(full, st.configChanges.Keys, st.configChanges.Values)
    case ReadTouchedConfigs(full, ids, touched) =>
      var configs := if full then st.configs else map g | g in st.configs && g in touched :: st.configs[g];
      && w'.Reconciling? && w'.part.Two?
      && w' == Reconciling(full, ids, Two(w'.part.rest, configs), [], Create) && Lists(w'.part.rest, configs.Keys)
    case Reconciling(full, ids, Two(rest, configs), todo, Create) =>
      && todo == [] && rest != [] && rest[0] in configs
      && w'.Reconciling? && w' == Reconciling(full, ids, Two(rest[1..], configs), w'.todo, Create)
      && TasksOfConfig(w'.todo, rest[0], configs[rest[0]], st.connections)
    case _ => false
  }

  ghost predicate QueryThree(st: Store, w: Worker, w': Worker) {
    match w
    case BeginThree(full) =>
      w' == ReadRows(full, st.syncChanges.Keys, st.syncChanges.Values)
    case ReadRows(full, ids, touched) =>
      w' == ReadRowConnections(full, ids, touched, if full then st.rows else map s | s in st.rows && s in touched :: st.rows[s])
    case ReadRowConnections(full, ids, touched, rows) =>
      w' == ReadRowConfigs(full, ids, touched, rows, st.connections.Keys)
    case ReadRowConfigs(full, ids, touched, rows, connections) =>
      && w'.Pausing? && w' == Pausing(full, ids, Plan(rows, connections, st.configs), w'.gone, w'.gone)
      && Lists(w'.gone, touched - rows.Keys)
    case Pausing(full, ids, plan, gone, left) =>
      left == [] && w' == Deleting(full, ids, plan, gone)
    case Deleting(full, ids, plan, left) =>
      && left == []
      && w'.Upserting? && w' == Upserting(full, ids, plan, w'.left) && Lists(w'.left, plan.rows.Keys)
    case _ => false
  }

  // The worker's writes: each is one statement or one call to Temporal.

  ghost predicate WriteSyncs(st: Store, w: Worker, st': Store, w': Worker)
    requires Ids(st)
  {
    && w.Reconciling? && w.todo != []
    && var t := w.todo[0];
    match w.stage {
      case Create =>
        && t.config.Some? && CanCreate(st, t)
        && st' == CreateSyncs(st, t) && w' == Reconciling(w.full, w.ids, w.part, w.todo, Change)
      case Change =>
        st' == AddSyncChanges(st, t.connection) && w' == Reconciling(w.full, w.ids, w.part, w.todo, Delete)
      case Delete =>
        st' == DeleteSyncs(st, t) && w' == Reconciling(w.full, w.ids, w.part, w.todo[1..], Create)
    }
  }

  ghost predicate WriteSchedules(st: Store, w: Worker, st': Store, w': Worker) {
    match w
    case Pausing(full, ids, plan, gone, left) =>
      left != [] && st' == PauseSchedule(st, left[0]) && w' == Pausing(full, ids, plan, gone, left[1..])
    case Deleting(full, ids, plan, left) =>
      left != [] && st' == DeleteSchedule(st, left[0]) && w' == Deleting(full, ids, plan, left[1..])
    case Upserting(full, ids, plan, left) =>
      && left != [] && left[0] in plan.rows
      && var row := plan.rows[left[0]];
      && row.connection in plan.connections && row.config in plan.configs && left[0] in st.rows
      && st' == StoreStrategy(st, left[0], StrategyOf(plan.configs[row.config].data, row.key))
      && w' == Scheduling(full, ids, plan, left)
    case Scheduling(full, ids, plan, left) =>
      && left != [] && left[0] in plan.rows
      && var row := plan.rows[left[0]];
      && row.config in plan.configs
      && st' == st.(schedules := UpsertSchedule(st.schedules, left[0], row, PeriodOf(plan.configs[row.config].data, row.key)))
      && w' == Upserting(full, ids, plan, left[1..])
    case _ => false
  }

  /** At the end of a part the captured events, and no others, are deleted. */
  ghost predicate FinishPart(st: Store, w: Worker, st': Store, w': Worker) {
    match w
    case Reconciling(full, ids, One, todo, Create) =>
      todo == [] && st' == st.(connectionChanges := st.connectionChanges - ids) && w' == BeginTwo(full)
    case Reconciling(full, ids, Two(rest, _), todo, Create) =>
      todo == [] && rest == [] && st' == st.(configChanges := st.configChanges - ids) && w' == BeginThree(full)
    case Upserting(full, ids, plan, left) =>
      left == [] && st' == st.(syncChanges := st.syncChanges - ids) && w' == if full then ClearFlag else Idle
    case ClearFlag =>
      st' == st.(full := false) && w' == Idle
    case _ => false
  }

  ghost predicate WorkerStep(st: Store, w: Worker, st': Store, w': Worker)
    requires Ids(st)
  {
    || (st' == st && (QueryOne(st, w, w') || QueryTwo(st, w, w') || QueryThree(st, w, w')))
    || WriteSyncs(st, w, st', w')
    || WriteSchedules(st, w, st', w')
    || FinishPart(st, w, st', w')
  }

  /** One step of the system. */
  ghost predicate Next(st: Store, w: Worker, st': Store, w': Worker)
    requires Ids(st)
  {
    || WorkerStep(st, w, st', w')
    || (st' == st && w' == Idle) // the worker throws or is killed, and will start over
    || (w' == w && exists a :: Enabled(st, a) && st' == Apply(st, a))
  }
}
