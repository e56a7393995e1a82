/** The rows and configuration values the sync engine works on. */
module SyncTypes {
  import opened StringHash

  datatype Option<+T> = None | Some(value: T)

  // Row, event and configuration ids are uuids: they are compared and never
  // reused. Connection ids also feed the offset hash, so they are strings.
  type Id = nat
  type ConnectionId = Utf16
  type Period = x: int | x > 0 witness 1

  const FIFTEEN_MINUTES_MS: Period := 15 * 60 * 1000

  datatype ObjectType = Common | Standard | Custom

  /** What one sync copies. The two unique indexes on the table of syncs make
      (connection, key) unique. */
  datatype SyncKey = ObjectKey(objectType: ObjectType, name: string) | EntityKey(entityId: string)

  datatype StrategyType = FullOnly | FullThenIncremental
  datatype Strategy = Strategy(strategyType: StrategyType, fullSyncEveryNIncrementals: Option<int>)

  datatype StrategyConfig = StrategyConfig(
    periodMs: Option<Period>,
    strategy: Option<StrategyType>,
    fullSyncEveryNIncrementals: Option<int>,
    autoStartOnConnection: Option<bool>)

  datatype ObjectConfig = ObjectConfig(name: string, syncStrategyOverride: Option<StrategyConfig>)

  datatype ConfigData = ConfigData(
    defaultConfig: StrategyConfig,
    commonObjects: seq<ObjectConfig>,
    standardObjects: seq<ObjectConfig>,
    customObjects: seq<ObjectConfig>,
    entities: seq<string>)

  datatype SyncConfig = SyncConfig(provider: Id, data: ConfigData)

  /** A connection's own choice of objects; an empty list falls back to the
      provider-wide SyncConfig. */
  datatype ConnectionSyncConfig = ConnectionSyncConfig(standardObjects: seq<ObjectConfig>, customObjects: seq<ObjectConfig>)

  datatype Connection = Connection(customer: Id, provider: Id, override: Option<ConnectionSyncConfig>)

  datatype Phase = FullPhase | IncrementalPhase
  datatype Progress = InProgress | Done
  datatype SyncState = Created | Live(phase: Phase, status: Progress, maxLastModifiedAtMs: Option<int>)

  datatype SyncRow = SyncRow(
    key: SyncKey,
    connection: ConnectionId,
    config: Id,
    paused: bool,
    strategy: Strategy,
    state: SyncState,
    performFullRefresh: bool)

  /** A Temporal schedule: the connection id sits in the arguments of its action. */
  datatype Schedule = Schedule(connection: ConnectionId, paused: bool, every: Period, offset: int)

  ghost predicate Lists<T(!new)>(order: seq<T>, elements: set<T>) {
    forall x :: x in order <==> x in elements
  }

  /** The database lists rows in no particular order. */
  method InAnyOrder<T(==,!new)>(s: set<T>) returns (order: seq<T>)
    ensures Lists(order, s)
  {
    order := [];
    var rest := s;
    while rest != {}
      invariant rest <= s && Lists(order, s - rest)
    {
      var x :| x in rest;
      order := order + [x];
      rest := rest - {x};
    }
  }
}
