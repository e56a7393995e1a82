# Supaglue's sync engine, modelled and verified

Supaglue copies customer CRM records into destination tables, on schedules derived from configuration. This project models
the parts of it that are hardest to get right and proves what they promise, for all inputs, all runs and all interleavings.

| part | files | what is proved |
|---|---|---|
| The outbox that turns configuration into syncs and schedules | `Reconcile`, `Outbox`, `OutboxInvariant`, `OutboxWriters`, `OutboxWorker`, `OutboxSafeWrites`, `OutboxTheorems`, `OutboxTables`, `OutboxFullPass`, `OutboxLosses`, `OutboxOffsets`, `Strategies`, `SyncService`, `ConnectionAndSyncService`, `SyncConfigService` | a transition system whose steps are every query and write of the worker, every transaction of a writer, deletions that cascade in the database, changes of schedules by hand, the upsert of a connection, and the worker dying anywhere; one inductive invariant, exactly which writes break it, and that for a worker that starts over it says just that nothing is forgotten; safety over every run; what unsafe writes lose, and for how long; convergence of an uninterrupted pass; the worker and the API written as programs whose every statement is a step of the system |
| The runs of a sync | `SyncRun`, `SyncRunData`, `SyncRunUpserts`, `SyncRunHistory`, `SyncRunWatermark`, `SyncRunRhythm`, `RunWorkflow` | a state machine for full and incremental passes with failures inside and between activities, a provider that changes meanwhile, and an API that upserts single records into the same rows; incremental syncing leaves the data full syncing would leave, and exactly which upserts by the API break that; phases, what every pass saves as its watermark, forced refreshes and the rhythm of full passes; the workflow written as a program over the destination writer, whose states are proved to be a run of the machine, with the exact condition for its success |
| The destination writer | `DestinationWriter` | the batched copy is one upsert of the deduplicated stream; what a full write leaves, also after failed attempts |
| Pagination of the managed table | `Pagination` | completeness forward over the rows of a tenant, independence of all other rows, safety of every walk, exactly when going back works |
| Smaller parts | `StringHash`, `EntityMapping`, `EntityMappingList`, `FieldMapping`, `DestinationService` | the schedule-offset hash, the two mapping merges, the field round trip, the writer cache |

`SyncTypes` holds the shared entities. `dafny verify dfyconfig.toml` checks everything.

## How the source is modelled

- **Tables** are maps by id. Ids are numbers handed out in increasing order, standing for uuids that are never reused; the event
  recorded for sync `s` in a bulk insert gets the id `next + s`. Connection ids are sequences of UTF-16 code units, because the
  schedule offset hashes them. Record ids and page cursors are integers, standing for any total order.
- **The outbox machine** (`Outbox.Next`) takes one step at a time: a query of the worker, one of its writes, a failure of the
  worker, or a writer's transaction. Three kinds of the modelled writes record no event although the worker would have something to
  do: a schedule changed by hand, for which only a full pass is requested, a deletion that cascades in the database, and the upsert that the
  OAuth callback falls back on, which can create a connection without its syncs. `OutboxTheorems.Careful` says of a run that all of these come
  when they are safe; the other writes always are. `Worker` says where the worker is and what it has read. One worker runs at a time. The
  invariant (`OutboxInvariant.Inv`) says that every row agrees with its schedule and both with the config, strategy included, or an event the worker has not captured
  covers it, or the worker itself will still visit it, and that whatever the worker will still do is backed by an event
  that outlives it, so nothing is lost if it stops.
- **The programs** (`SyncService.SyncService`, `RunWorkflow.RunWorkflow`) are classes with the source's loops and branches. A ghost field
  follows the machine, and each statement is proved to be a step of it. `RunWorkflow.Interfere` stands for everyone else:
  its body does nothing, but its caller knows only its contract, which admits any number of steps of others. The ghost field `run`
  holds every state so far; that it is a run of the machine is what every method keeps, so the theorems about runs apply to it.
- **The API's upserts** (`SyncRun.ApiRead`, `ApiUpsert`): an API call that has written a record reads it back from the provider and, any number of
  steps later, upserts what it has read, without comparing stamps. `SyncRunData.Harmless` is the condition on one such upsert.
- **The provider** is a map that changes over time, each edit with a stamp later than all before; a stream is a snapshot filtered by
  modification time, in which a record may also come in older versions besides its current one.
- **The destination** is a map from tenant, object name and id to a row. Each SQL statement commits by itself, as in the source, so a failed
  write may leave any part of the ids copied. The order and the choice among equal stamps in `SELECT DISTINCT ON` are what SQL allows.

## Where the code falls short of a stated property

The code is modelled as it is. Each limit below has a concrete counterexample and an exact condition.

- An API call can upsert a version of a record that a pass has overtaken: a run from the creation of a sync ends with the watermark at the
  record's stamp and the version before in the destination (`SyncRunUpserts.WatermarkCanLie`), and incremental passes do not repair it
  (`WrongStaysWrong`). The data invariant survives an upsert exactly when it writes the current version or one whose successor is still to
  come (`SyncRunData.UpsertIsHarmless`); a full pass starts afresh (`DataAlways`).
- Deletions that cascade (of a customer, a provider, an entity, an application) remove syncs without an event: a schedule left behind stays for good,
  also through full passes (`OutboxLosses.CascadeLeavesOrphan`, `OrphanIsForever`). The invariant survives exactly when every row that
  vanishes is recorded (`OutboxSafeWrites.CascadeKeepsInv`).
- A full pass requested while one is running can be cleared with it (`OutboxLosses.RequestIsLost`). A schedule changed by hand is noticed
  exactly when the running full pass has not yet upserted it (`OutboxFullPass.FullPassNotices`), and always when the flag was
  off (`OutboxSafeWrites.FlagOffIsSafe`).
- The deletion filter carries no entity id, so an entity sync survives while any entity is configured
  (`Reconcile.StaleEntitySyncSurvives`, exact condition in `Reconcile.PassIsExact`).
- Part one of the reconciler throws exactly when a connection it considers has no sync config (`SyncService.SyncService.DoProcessSyncChanges`),
  and runs do get there (`SyncService.PassCanThrow`).
- The strategy a sync is created with and the one stored with its schedule differ, and so do the configured period and the schedule's, for overrides that
  set only a part (`Strategies.OverrideHidesDefaults`, exact conditions in `ReconciledStrategyIsStored`, `PeriodIsFieldwise` and
  `SyncConfigService.CreatedStrategyFitsIff`), for a
  connection's own lists, whose settings are ignored (`OwnSettingsAreIgnored`, `OwnStrategyIsStored`, `OwnPeriodIsUsed`), for
  syncs the API creates (`ApiIgnoresOverride`, `ApiStrategyIsStored`) and for entities (`EntityNumberComesLater`, `EntityStrategyIsStored`).
  At every quiet moment the stored strategy is the configured one all the same (`QuietSyncIsConfigured`).
- A sync config with a custom object listed twice passes validation (`SyncConfigService.RepeatedObjectPasses`), but the transaction that creates a
  connection with its syncs fails under it (exact condition in `ConnectionCanBeCreated`). The OAuth callback then upserts the connection alone: from an
  empty installation, with no failure and nothing concurrent, it ends up without syncs and with nothing recorded
  (`OutboxLosses.ConnectionIsForgotten`). After the callback the connection is safe exactly when it was there before and safe, or the
  config lists no sync twice, or a change of the config or a full pass is still to come (`ConnectionAndSyncService.CallbackIsSafeIff`); the
  invariant survives an upsert exactly under `OutboxSafeWrites.UpsertKeepsInv`.
- What has been forgotten in any of these ways is found again by the next full pass, but for schedules left behind: exact condition in
  `OutboxTables.RequestRepairsIff`.
- A pause or resume with a stale copy of the sync can be swallowed (`ConnectionAndSyncService.PauseIsSwallowed`, exact condition in
  `ConnectionAndSyncService.ConnectionAndSyncService.ChangeSyncPausedState`).
- A requested refresh can be lost in two ways. A run in progress wipes it when it succeeds (`SyncRunHistory.RequestDuringRunIsLost`,
  `RequestCanBeLost`), and a plain trigger, which asks for no refresh, overwrites it even with no run in progress (`RequestCanBeOverwritten`). It
  stands exactly when since the last trigger that asked for it neither has happened (`RequestStandsIff`, `RequestIsATriggers`); until a full pass completes,
  a run can only have cleared it if one was in progress when it was made (`RequestIsHonouredIff`).
- A full reverse page leaves out the row nearest to the cursor, so `previous` undoes `next` only on the first page
  (`Pagination.BackSkipsPage`, exact conditions in `ReversePage` and `PreviousUndoesNext`). Going back further loses nothing more, but the last
  page on the way repeats a row (`BackRepeatsRow`, exact condition in `PreviousGoesOn`).
- `mergeEntityMappings` changes both mappings it is given (`EntityMapping.MappingsChange`): the developer's exactly when the customer maps something
  differently (`MergeChangesIff`), the customer's only when it maps a field twice (`MergeEntityMappings`, `CustomerKeepsDistinct`).
- The field round trip loses falsy values and a core field called `additionalFields` (`FieldMapping.RoundTripLoses`, exact condition in `RoundTrip`).

## Model

| member | source | states |
|---|---|---|
| `Reconcile.PassIsExact` | packages/sync-workflows/services/sync_service.ts:282-355 | after a pass a connection's object keys are exactly the desired ones and every desired entity is there; entity keys are exact as well if and only if the pass wants no entity or there was no undesired entity before |
| `Reconcile.StaleEntitySyncSurvives` | packages/sync-workflows/services/sync_service.ts:344-350 | a concrete connection keeps the sync of an entity that is no longer configured |
| `Reconcile.PassIsIdempotent` | packages/sync-workflows/services/sync_service.ts:390-451 | a second pass changes no sync row |
| `Reconcile.PassKeepsSurvivors` | packages/sync-workflows/services/sync_service.ts:390-451 | surviving rows keep id, paused flag and state, other connections' rows all survive, new rows are in phase created, the unique index holds |
| `Reconcile.CreateManyRows` | packages/sync-workflows/services/sync_service.ts:294-299 | of several arguments with one key the first makes the row, the others are skipped |
| `Reconcile.NewSyncsAreConfigured` | packages/sync-workflows/services/sync_service.ts:161-254 | new syncs are paused exactly when automatic starts are off, in phase created, with the object's own strategy over the default |
| `Reconcile.DeletedRowsHaveChanges` | packages/sync-workflows/services/sync_service.ts:309-355 | every row a pass deletes has a change event of its own |
| `Reconcile.CreateManyKeys` | packages/sync-workflows/services/sync_service.ts:288-299 | inserting with skipped duplicates gives the connection every key asked for and new rows only for keys it lacked |
| `Reconcile.DesiredKeys` | packages/sync-workflows/services/sync_service.ts:190-254 | which syncs a connection should have, with its own non-empty lists overriding the provider's standard and custom objects |
| `OutboxWorker.WorkerKeepsInv` | packages/sync-workflows/services/sync_service.ts:256-564 | every query and every write of the worker, in all three parts, keeps the outbox invariant |
| `OutboxWriters.WriteKeepsInv` | apps/api/services/connection_and_sync_service.ts:61-107 | every transaction that records its event keeps the outbox invariant, wherever the worker is; so does a change by hand outside full passes |
| `OutboxWriters.SetConnectionSyncConfigAnnounced` | packages/core/services/connection_service.ts:464-509 | setting or removing a connection's own config records an event that no running pass has captured |
| `OutboxWriters.CreateConnectionAnnounced` | apps/api/services/connection_and_sync_service.ts:359-539 | a new connection's syncs each have an event, and they are what its config asks for |
| `OutboxWriters.DeleteConnectionAnnounced` | apps/api/services/connection_and_sync_service.ts:541-584 | every sync deleted with its connection has an event no running pass has captured |
| `OutboxWriters.CreateConfigAnnounced` | packages/core/services/sync_config_service.ts:144-158 | a new config has an event |
| `OutboxWriters.UpdateConfigAnnounced` | packages/core/services/sync_config_service.ts:177-187 | a changed config has an event |
| `OutboxWriters.DeleteConfigAnnounced` | packages/core/services/sync_config_service.ts:345-365 | every sync deleted with its config has an event |
| `OutboxWriters.WriteLeaves` | packages/db/prisma/schema.prisma:131-190 | over all writers: rows, connections and configs that stay are as before but for the one column written, new ones are as given, only what is deleted goes, with the rows under it, and the flag is raised exactly by a request |
| `OutboxInvariant.StopKeepsInv` | packages/sync-workflows/services/sync_service.ts:145-159 | the invariant survives an exception or a crash at any point, so that a retry starts from a state that satisfies it |
| `OutboxSafeWrites.WriteIsSafe` | apps/api/services/connection_and_sync_service.ts:61-107 | over all writers, including changes by hand, cascading deletions and the upsert of a connection: the invariant survives a write, wherever the worker is, if and only if the write is safe |
| `OutboxSafeWrites.TamperKeepsInv` | packages/sync-workflows/activities/do_process_sync_changes.ts:11-23 | the invariant survives a schedule changed by hand with a full pass requested if and only if no full pass is running, or it will still upsert the schedule, or an event not yet captured is there, or the schedule is as the row wants it |
| `OutboxSafeWrites.FlagOffIsSafe` | packages/sync-workflows/activities/do_process_sync_changes.ts:11-23 | a caller who finds the flag off may change any schedule by hand and request a full pass |
| `OutboxSafeWrites.CascadeKeepsInv` | packages/core/services/customer_service.ts:75-85 | the invariant survives a cascading deletion if and only if every row that vanishes with a schedule, there or planned, has an event, and every one still wanted has an event of its connection or config |
| `OutboxSafeWrites.UpsertKeepsInv` | apps/api/services/connection_and_sync_service.ts:138-185 | the invariant survives the upsert of a connection, wherever the worker is, if and only if the connection is there already, or its provider's config wants nothing, or a change of that config not yet captured, the rest of the running pass or a requested full pass will still give it its syncs |
| `OutboxTheorems.InvAlways` | packages/sync-workflows/services/sync_service.ts:145-159 | the invariant holds at every moment of every run of writers, worker and failures from an empty installation in which no write is unsafe |
| `OutboxTheorems.InvHoldsIffCareful` | packages/sync-workflows/services/sync_service.ts:145-159 | over all runs from an empty installation: the invariant holds throughout if and only if no unsafe write comes in |
| `OutboxTheorems.OutboxSafety` | packages/sync-workflows/services/sync_service.ts:490-564 | at every moment of every such run, each sync's schedule agrees with its row and both with its config in paused flag, period and strategy, or an event for the sync, its config or its connection, or the full flag, is still recorded; likewise for the syncs of each connection |
| `OutboxTheorems.InvIsSafe` | packages/sync-workflows/services/sync_service.ts:367-462 | the invariant at any position of the worker implies that safety statement, about recorded events alone |
| `OutboxTables.TablesAlways` | packages/db/prisma/schema.prisma:131-190 | in every run, whatever is written, foreign keys and unique indexes hold, and what the worker has read keeps its providers |
| `OutboxTables.InvIffSafe` | packages/sync-workflows/services/sync_service.ts:145-159 | at any moment of any run, whatever has been written, the invariant holds for a worker that starts over if and only if no sync and no connection is forgotten, a statement about recorded events alone |
| `OutboxTables.RequestRepairsIff` | packages/sync-workflows/services/sync_service.ts:135-146 | at any moment of any run, whatever has been forgotten, with a full pass requested everything is safe again if and only if every schedule without a row has an event |
| `OutboxTheorems.NothingRecordedIsConverged` | packages/sync-workflows/services/sync_service.ts:513-563 | with empty queues and no pass running, schedules and rows are in bijection and agree in paused flag, period and strategy with each other and the config, and each connection has exactly its object syncs |
| `OutboxTheorems.QuietIsConverged` | packages/sync-workflows/services/sync_service.ts:145-159 | the same at any quiet moment of any run without unsafe writes |
| `OutboxOffsets.OffsetsAlways` | packages/sync-workflows/services/sync_service.ts:641-649 | in every run, whatever is written, every schedule's offset is the hash of its connection and period and lies within the period, and syncs of one connection with one period share it |
| `OutboxOffsets.KeepingIsRecomputing` | packages/sync-workflows/services/sync_service.ts:691-721 | over any series of upserts with changing periods, keeping the interval while the period is the same gives what always recomputing it gives |
| `OutboxFullPass.FullPassNotices` | packages/sync-workflows/activities/do_process_sync_changes.ts:11-23 | a schedule is changed by hand during a full pass, and nothing else is recorded for it: when the pass has completed uninterrupted, the schedule agrees with its row again if and only if the pass had not yet upserted it |
| `OutboxLosses.RequestIsLost` | packages/sync-workflows/activities/do_process_sync_changes.ts:11-23 | a run from an empty installation in which a full pass requested after a schedule was deleted by hand is cleared with the running one: nothing is recorded and the row has no schedule |
| `OutboxLosses.OrphanIsForever` | packages/sync-workflows/services/sync_service.ts:142-144 | in any run, whatever is written and however many full passes are made, a schedule without a row and without an event stays |
| `OutboxLosses.CascadeLeavesOrphan` | packages/core/services/customer_service.ts:75-85 | a run from an empty installation in which deleting a customer leaves such a schedule |
| `OutboxLosses.ConnectionIsForgotten` | apps/api/routes/oauth.ts:336-348 | a run from an empty installation, under a valid config, in which no creation is possible and the upsert leaves a connection without syncs and with nothing recorded |
| `Strategies.ReconciledStrategyIsStored` | packages/sync-workflows/services/sync_service.ts:161-188 | for an object of the provider's lists, the strategy the reconciler creates the sync with is the one stored with the schedule if and only if no override hides a default that differs from what is assumed |
| `Strategies.PeriodIsFieldwise` | packages/sync-workflows/services/sync_service.ts:553 | the schedule's period is the override's, else the default's, else fifteen minutes, if and only if no override without a period hides a default of another length |
| `Strategies.OverrideHidesDefaults` | packages/sync-workflows/services/sync_service.ts:465-488 | a concrete override for which both fail |
| `Strategies.OwnStrategyIsStored` | packages/sync-workflows/services/sync_service.ts:204-232 | for an object of a connection's own list, the strategy of creation is the stored one if and only if the provider's config says the same about that object |
| `Strategies.OwnPeriodIsUsed` | packages/sync-workflows/services/sync_service.ts:465-488 | a period in a connection's own list is the schedule's if and only if the provider's config says the same |
| `Strategies.OwnSettingsAreIgnored` | packages/sync-workflows/services/sync_service.ts:465-488 | a concrete connection whose own strategy and period are ignored |
| `Strategies.ApiStrategyIsStored` | apps/api/services/connection_and_sync_service.ts:395-491 | the strategy the API creates a sync with is the stored one if and only if no number of incrementals is configured for it and an override is of the default's type |
| `Strategies.ApiIgnoresOverride` | apps/api/services/connection_and_sync_service.ts:421-444 | a concrete object configured as full only that the API creates as incremental |
| `Strategies.EntityStrategyIsStored` | packages/sync-workflows/services/sync_service.ts:234-250 | an entity sync, created by either, has the stored strategy if and only if the default sets no number of incrementals |
| `Strategies.EntityNumberComesLater` | packages/sync-workflows/services/sync_service.ts:465-468 | a concrete entity for which they differ |
| `Strategies.QuietSyncIsConfigured` | packages/sync-workflows/services/sync_service.ts:541-553 | at any quiet moment of any run without unsafe writes, whatever a sync was created with, its stored strategy and its period are those the provider's config sets for its object, or else the default's |
| `SyncService.IndexByProvider` | packages/sync-workflows/services/sync_service.ts:273-280 | the lookup record maps a provider to its config, and misses a provider only if it has none |
| `SyncService.SyncService.ReconcileConnection` | packages/sync-workflows/services/sync_service.ts:283-355 | the loop body turns the rows into those of one pass, each of its three writes keeping the invariant, and throws exactly when the config is missing |
| `SyncService.SyncService.ProcessConnectionSyncConfigChanges` | packages/sync-workflows/services/sync_service.ts:256-365 | part one empties the queue it captured, keeps the surviving rows, touches no connection it does not consider, and throws exactly when one it considers has no config |
| `SyncService.SyncService.ProcessSyncConfigChanges` | packages/sync-workflows/services/sync_service.ts:367-462 | part two empties the queue it captured, touches only connections under the configs it considers, and never throws on its own |
| `SyncService.SyncService.PauseTemporalSyncs` | packages/sync-workflows/services/sync_service.ts:566-600 | exactly the schedules of the syncs that are gone are paused, before any is deleted |
| `SyncService.SyncService.DeleteTemporalSyncs` | packages/sync-workflows/services/sync_service.ts:566-637 | pausing all and then deleting all schedules of the syncs that are gone, and no others, keeps the invariant at each call |
| `SyncService.SyncService.UpsertTemporalSync` | packages/sync-workflows/services/sync_service.ts:639-728 | creating or updating a schedule sets paused flag and period and keeps the interval while the period is the same |
| `SyncService.SyncService.ProcessSyncRowChanges` | packages/sync-workflows/services/sync_service.ts:490-564 | part three empties the queue it captured, finds every connection and config it looks up, stores the configured strategy and upserts the schedule of every sync it considers, deletes the schedules of those that are gone, and leaves all other rows and schedules alone |
| `SyncService.SyncService.DoProcessSyncChanges` | packages/sync-workflows/activities/do_process_sync_changes.ts:11-23 | an uninterrupted activity ends with empty queues, the flag cleared and everything in line, strategies included, if and only if every connection it considers has a config; otherwise flag and invariant are kept for the retry; unless it is a full one, it leaves every sync alone for which nothing is recorded |
| `SyncService.PassCanThrow` | packages/sync-workflows/services/sync_service.ts:282-290 | a run from an empty installation to a state in which every pass, full or not, throws |
| `ConnectionAndSyncService.ConnectionAndSyncService.Create` | apps/api/services/connection_and_sync_service.ts:359-539 | creating a connection inserts one sync for each key the config asks for, paused as the caller or else the config says, in phase created, with the default's strategy and exactly one change event each, or fails as a whole exactly when the customer has one already or the config lists a sync twice |
| `ConnectionAndSyncService.ConnectionAndSyncService.Upsert` | apps/api/services/connection_and_sync_service.ts:138-185 | creates the connection row alone, or leaves the one that is there |
| `ConnectionAndSyncService.ConnectionAndSyncService.OAuthCallback` | apps/api/routes/oauth.ts:336-348 | creates the connection with its syncs, or upserts it when that fails on a unique index |
| `ConnectionAndSyncService.CallbackIsSafeIff` | apps/api/routes/oauth.ts:336-348 | a connection that was there is left as it was; a new one is safe after the callback if and only if the config lists no sync twice, or a change of the config or a full pass is still to come |
| `ConnectionAndSyncService.ConnectionAndSyncService.InsertSyncs` | apps/api/services/connection_and_sync_service.ts:388-505 | the insertion succeeds exactly when all keys are distinct, and the ids collected are those of the connection's syncs |
| `ConnectionAndSyncService.ConnectionAndSyncService.ChangeSyncPausedState` | apps/api/services/connection_and_sync_service.ts:82-107 | a flag that differs from the caller's copy is written with its event, unless the sync is gone; the sync ends up with the flag asked for if and only if the copy's flag differs from it or the stored one does not |
| `ConnectionAndSyncService.PauseIsSwallowed` | apps/api/services/connection_and_sync_service.ts:82-85 | a concrete pause with a stale copy that leaves the sync running |
| `ConnectionAndSyncService.ConnectionAndSyncService.Delete` | apps/api/services/connection_and_sync_service.ts:541-584 | deleting a connection deletes its syncs and records an event for each |
| `SyncConfigService.SyncConfigService.DiffAndCountAffectedSyncs` | packages/core/services/sync_config_service.ts:198-272 | the four counts add up to the number of syncs of the config whose object or entity is dropped |
| `SyncConfigService.SyncConfigService.Update` | packages/core/services/sync_config_service.ts:162-196 | an update is refused exactly when it is invalid, the config is unknown, or it would affect syncs and is not forced, and then changes nothing; otherwise it is written with its event |
| `SyncConfigService.SyncConfigService.Delete` | packages/core/services/sync_config_service.ts:329-362 | a deletion is refused exactly when the config is unknown or has syncs and is not forced; otherwise syncs, config and events are written together |
| `SyncConfigService.AcceptedUpdateDeletesNothing` | packages/core/services/sync_config_service.ts:169-176 | after an update accepted without force, the next reconciliation of any connection, with or without its own config, removes no sync of the config |
| `SyncConfigService.DeletedExactly` | packages/core/services/sync_config_service.ts:198-272 | a sync that was desired before is removed by the next reconciliation if and only if it was counted and neither its connection's own list nor another entity keeps it |
| `SyncConfigService.ConnectionCanBeCreated` | packages/core/services/sync_config_service.ts:407-464 | under a valid config no two syncs of a new connection have one key, so that the creating transaction succeeds, if and only if its custom objects are distinct, which validation does not check |
| `SyncConfigService.RepeatedObjectPasses` | packages/core/services/sync_config_service.ts:407-464 | a concrete valid config under which the creating transaction fails for every customer |
| `SyncConfigService.ValidIff` | packages/core/services/sync_config_service.ts:407-464 | parameters are refused exactly for a repeated common object, standard object or entity, or for a number of incrementals that is below one or goes with full syncs alone |
| `SyncConfigService.StoredStrategyFits` | packages/core/services/sync_config_service.ts:430-464 | under a valid config no strategy the reconciler stores combines full syncs alone with a number, or has one below one |
| `SyncConfigService.CreatedStrategyFitsIff` | packages/sync-workflows/services/sync_service.ts:161-188 | the strategy the reconciler creates a sync with is free of that if and only if override and default do not combine to it |
| `SyncRunData.DataAlways` | packages/sync-workflows/workflows/run_object_sync.ts:186-264 | with failures between and inside activities, and whatever happened before, the data invariant holds from the creation of the sync on, and from any full pass on, as long as the API's upserts are harmless |
| `SyncRunData.UpsertIsHarmless` | packages/core/services/common_objects/crm/common_object_service.ts:123-144 | the data invariant survives an API upsert if and only if it writes the source's current version, or that version's stamp is above the watermark and above what the running pass takes as done |
| `SyncRunData.DataHoldsIffHarmless` | packages/sync-workflows/workflows/run_object_sync.ts:186-264 | over all runs: the data invariant holds at every moment if and only if every API upsert is harmless |
| `SyncRunData.WatermarkIsHonest` | packages/sync-workflows/workflows/run_object_sync.ts:223-264 | as long as upserts are harmless, every source record up to the stored watermark is in the destination exactly as it is in the source |
| `SyncRunData.SuccessDelivers` | packages/sync-workflows/workflows/run_object_sync.ts:186-264 | as long as upserts are harmless, a run that succeeds, full or incremental, leaves every record not changed since it was fetched in the destination as it is in the source |
| `SyncRunUpserts.SuccessDeliversFetched` | packages/sync-workflows/workflows/run_object_sync.ts:186-264 | if no upsert is older than what the pass fetched either, every record fetched is there in the version fetched or a later one |
| `SyncRunUpserts.UpsertIsNotOutdated` | packages/core/services/object_record_service.ts:90-127 | that second invariant survives an API upsert if and only if it is not older than the version fetched |
| `SyncRunUpserts.FullSuccessIsExact` | packages/core/destination_writers/postgres_impl.ts:458-484 | when a full run succeeds for a provider that lists everything and the API has not upserted since it fetched, the live rows of the sync are exactly the live records fetched |
| `SyncRunUpserts.WatermarkCanLie` | packages/core/services/common_objects/crm/common_object_service.ts:123-144 | a run from the creation of a sync in which an API upsert of an older version leaves a record below the watermark wrong |
| `SyncRunUpserts.WrongStaysWrong` | packages/sync-workflows/workflows/run_object_sync.ts:223-264 | a wrong record that is neither edited nor upserted again stays wrong over any number of incremental passes that do not fetch it |
| `SyncRunData.IncrementalRefinesFull` | packages/sync-workflows/activities/sync_object_records.ts:187 | over the same destination and source an incremental pass leaves what a full pass leaves if and only if no live row has vanished from the provider or vanished rows are not deleted; in any case both hold every record |
| `SyncRunData.WriteDelivers` | packages/core/destination_writers/postgres_impl.ts:385-452 | writing a stream filtered by a watermark up to which the destination is right makes it right for the whole source |
| `SyncRunHistory.IncrementalFollowsFull` | packages/sync-workflows/activities/get_sync_strategy.ts:9-33 | phase incremental is reached only after a completed full pass |
| `SyncRunHistory.CreatedIsLeftForGood` | packages/sync-workflows/workflows/run_object_sync.ts:186-264 | phase created is never re-entered |
| `SyncRunHistory.InterruptedFullIsRetried` | packages/sync-workflows/activities/get_sync_strategy.ts:20-30 | after an interrupted full pass every pass is full until one completes |
| `SyncRunHistory.StaysIncremental` | packages/sync-workflows/activities/get_sync_strategy.ts:35-44 | once a full pass is past, a sync goes on with incremental passes alone as long as none is forced and no number of incrementals applies to it; to an entity none does |
| `SyncRunHistory.WatermarkOnlyGrows` | packages/sync-workflows/workflows/run_object_sync.ts:223-264 | without full passes in between the watermark never decreases, and an incremental run that fails before saving keeps it |
| `SyncRunWatermark.SavedWatermark` | packages/sync-workflows/workflows/run_object_sync.ts:186-264 | whenever a pass saves its state, also when the answer is lost: no record of the stream it has just written is later than the new watermark, which is the stamp of one of them, the watermark before or 0, and no less than before in an incremental pass; there is none exactly for syncs that only do full passes |
| `SyncRunHistory.ForcedRefreshIsHonoured` | packages/sync-workflows/activities/get_sync_strategy.ts:15-18 | after a refresh requested with no run in progress, as long as no plain trigger comes in, every pass is full and the request stands until a full pass completes |
| `SyncRunHistory.RequestStandsIff` | apps/api/services/connection_and_sync_service.ts:61-72 | wherever runs are, at any later moment a refresh is requested if and only if since the last request, at the first moment or by a trigger after it, no run has cleared its arguments and no plain trigger has come in |
| `SyncRunHistory.RequestIsATriggers` | apps/api/services/connection_and_sync_service.ts:61-72 | the same from the creation of the sync on: the last request is that of a trigger |
| `SyncRunHistory.PassReadsRequest` | packages/sync-workflows/activities/get_sync_strategy.ts:15-18 | a pass sees a request if and only if it stands when the pass reads the sync, and is then full |
| `SyncRunHistory.RequestIsHonouredIff` | packages/sync-workflows/activities/get_sync_strategy.ts:15-18 | until the next full pass completes, a request made at any moment is undisturbed if and only if no run had cleared it by a moment without a run in progress and no plain trigger comes in, and then every pass is full; with no run in progress at the request only a plain trigger can lose it |
| `SyncRunHistory.RequestDuringRunIsLost` | packages/sync-workflows/workflows/run_object_sync.ts:92-97 | a refresh requested while an incremental run is in progress is gone when that run succeeds, without a full pass for it, and comes back only if it is requested again |
| `SyncRunHistory.RequestCanBeLost` | packages/sync-workflows/workflows/run_object_sync.ts:92-97 | a run from the creation of a sync in which that happens, after which the next pass will be incremental |
| `SyncRunHistory.RequestCanBeOverwritten` | apps/api/routes/mgmt/v2/sync/index.ts:110 | a run from the creation of a sync in which a plain trigger erases a refresh requested with no run in progress, after which the next pass will be incremental |
| `SyncRunRhythm.AtMostNIncrementals` | packages/core/services/sync_run_service.ts:111-131 | with a full pass every N incremental ones, any N + 1 consecutive successful runs contain a full one, whatever failed in between |
| `SyncRunRhythm.SmoothRunsArePeriodic` | packages/sync-workflows/activities/get_sync_strategy.ts:35-45 | in every run of the machine without failures and forced refreshes, the log and the choice in progress follow the period: a full run, then N incremental ones, and so on |
| `SyncRunRhythm.PeriodIsOver` | packages/core/services/sync_run_service.ts:111-131 | in such a history the last N successes are all incremental exactly when a whole period is over |
| `RunWorkflow.RunWorkflow.RunObjectSync` | packages/sync-workflows/workflows/run_object_sync.ts:80-184 | under any steps of others and any fate of its activities the states of the workflow are a run of the machine; it succeeds if and only if every activity does and one of three attempts to write has enough statements, and is then logged with the strategy the sync called for and the number of records; success means a watermark moved on over the stream written, that every record unchanged since the fetch is delivered as long as upserts were harmless since some beginning, and every record fetched in that version or a later one if none was outdated |
| `RunWorkflow.RunWorkflow.DoFullSync` | packages/sync-workflows/workflows/run_object_sync.ts:186-221 | a full pass asks for everything, counts the records it wrote and saves their latest stamp (none for syncs that only do full passes), or ends in the catch block, with the exact condition |
| `RunWorkflow.RunWorkflow.DoIncrementalSync` | packages/sync-workflows/workflows/run_object_sync.ts:223-264 | an incremental pass asks for what is later than the stored watermark, counts the records it wrote and moves the watermark on over them, or ends in the catch block, with the exact condition |
| `RunWorkflow.RunWorkflow.SyncObjectRecords` | packages/sync-workflows/activities/sync_object_records.ts:43-58 | attempts, each with a new fetch, go on until one has enough statements or three have failed, each statement a step of the machine |
| `RunWorkflow.RunWorkflow.StreamRecords` | packages/sync-workflows/activities/sync_object_records.ts:187 | a stream after a watermark contains every record modified later, and everything without one |
| `RunWorkflow.RunWorkflow.GetRecord` | packages/core/services/common_objects/crm/common_object_service.ts:133-135 | an API call reads the current version of the record, if there is one, as a step of the machine |
| `RunWorkflow.RunWorkflow.UpsertRecord` | packages/core/services/entity_record_service.ts:63-82 | it writes the version it has read over whatever the destination holds, as a step of the machine |
| `RunWorkflow.RunWorkflow.TriggerSync` | apps/api/services/connection_and_sync_service.ts:61-72 | stores whether a full refresh is wanted over what was stored before, as a step of the machine |
| `DestinationWriter.DestinationWriter.Load` | packages/core/destination_writers/postgres_impl.ts:385-426 | loading counts the rows and finds the exact latest stamp, none exactly for an empty stream |
| `DestinationWriter.SelectDistinct` | packages/core/destination_writers/postgres_impl.ts:444-449 | a batch holds one latest record for each of the ids ranked from the offset on |
| `DestinationWriter.OneBatchPerId` | packages/core/destination_writers/postgres_impl.ts:430-452 | whatever ties pick, every id is in the batch of its rank and no other, and the loop reaches that batch |
| `DestinationWriter.BatchIsNext` | packages/core/destination_writers/postgres_impl.ts:444-451 | a batch proposes no conflict key twice and continues the batches before |
| `DestinationWriter.DestinationWriter.CopyFromTemp` | packages/core/destination_writers/postgres_impl.ts:430-452 | the loop up to the raw row count is one upsert of the deduplicated temp table, in one statement for every ten thousand rows loaded; when the connection fails before, exactly the batches sent so far are copied |
| `DestinationWriter.CopyIsDetermined` | packages/core/destination_writers/postgres_impl.ts:444-451 | without equal stamps for an id the copy has one possible result |
| `DestinationWriter.FullWriteLeavesTheStream` | packages/core/destination_writers/postgres_impl.ts:458-484 | after a full write with deletion the live rows of tenant and object are among the deduplicated stream rows not deleted themselves, and exactly those when no id has two rows with equal stamps; every row the stream lacks is marked deleted and otherwise as before |
| `DestinationWriter.OthersAreUntouched` | packages/core/destination_writers/postgres_impl.ts:458-484 | no other tenant's and no other object's row changes, even in failed writes |
| `DestinationWriter.DestinationWriter.WriteRecordsImpl` | packages/core/destination_writers/postgres_impl.ts:327-485 | the whole write, deleting exactly when asked to and the provider lists everything, with count and maximum, succeeds exactly when the connection carries all its statements |
| `DestinationWriter.DestinationWriter.WriteCommonObjectRecordsImpl` | packages/core/destination_writers/postgres_impl.ts:118-254 | the same for common objects |
| `DestinationWriter.DestinationWriter.UpsertRecordImpl` | packages/core/destination_writers/postgres_impl.ts:256-325 | upserting one record is writing a stream of one |
| `Pagination.GetRecords` | apps/api/services/managed_data_service.ts:59-132 | page sizes outside 1 to 1000 are refused; a cursor with no row of the tenant on its side makes it throw; otherwise a page of rows of the tenant modified after the given time, and of nobody else |
| `Pagination.Query` | apps/api/services/managed_data_service.ts:446-470 | the query's rows are on the cursor's side, in its order, and none nearer is missing |
| `Pagination.OthersMakeNoDifference` | apps/api/services/managed_data_service.ts:446-470 | rows of other tenants that change, come or go change no answer |
| `Pagination.ForwardIsComplete` | packages/core/lib/pagination.ts:97-142 | following next from the start with any page sizes lists every matching row exactly once in id order |
| `Pagination.ForwardListsTenant` | apps/api/services/managed_data_service.ts:446-470 | the pages together are every row of the tenant modified after the given time, once, and no other row |
| `Pagination.ForwardTerminates` | packages/core/lib/pagination.ts:97-142 | such a walk has at most one page more than there are rows |
| `Pagination.WalksAreSafe` | packages/core/lib/pagination.ts:104-141 | along any mix of next and previous each cursor names a row with a row on its side, no page after the first is empty, and no read of a first row fails |
| `Pagination.ReversePage` | packages/core/lib/pagination.ts:115-141 | a reverse page lists all rows before the cursor, and resumes right behind them, if and only if there is at most a page of them; otherwise it leaves out the nearest |
| `Pagination.NextUndoesPrevious` | packages/core/lib/pagination.ts:115-141 | going on from any reverse page starts at the row the cursor named |
| `Pagination.PreviousUndoesNext` | packages/core/lib/pagination.ts:104-141 | going back gives the page before if and only if at most a page of rows precede |
| `Pagination.PreviousGoesOn` | packages/core/lib/pagination.ts:115-141 | going on backwards from a full reverse page gives the rows right before it, none left out or repeated, if and only if at least a page of them is left; otherwise all of them and the first row of the page again |
| `Pagination.BackSkipsPage` | packages/core/lib/pagination.ts:104-141 | a concrete table and walk in which going back leaves out a page |
| `Pagination.BackRepeatsRow` | packages/core/lib/pagination.ts:115-141 | a concrete table and walk in which going back gives a row twice |
| `StringHash.ComputeStringToNumber` | packages/sync-workflows/services/sync_service.ts:731-745 | the wrapping loop computes the absolute value of the wrapped sum of c_i * 31^(n-1-i) modulo m, for every string |
| `StringHash.HashConcat` | packages/sync-workflows/services/sync_service.ts:731-745 | hashing composes over concatenation |
| `StringHash.MinimumHashIsReached` | packages/sync-workflows/services/sync_service.ts:744 | some string hashes to -2^31, and its result is still below m |
| `EntityMapping.MergeEntityMappings` | packages/core/mappers/entity_mapping.ts:9-53 | merging on shared objects returns the developer's own list, changed in place to the merged fields; ids must match; the object is the customer's; of the customer's own list exactly the entries handed over change, to the last mapping of their field |
| `EntityMapping.MergeIsOverride` | packages/core/mappers/entity_mapping.ts:36-46 | the merge is the developer's map overridden by the customer's, with distinct entity fields |
| `EntityMapping.MergeChangesIff` | packages/core/mappers/entity_mapping.ts:36-46 | the developer's list is changed if and only if the customer maps a field the developer does not, or maps one differently |
| `EntityMapping.CustomerKeepsDistinct` | packages/core/mappers/entity_mapping.ts:36-46 | a customer's list without repeated fields is left as it is |
| `EntityMapping.MappingsChange` | packages/core/mappers/entity_mapping.ts:28-46 | a concrete merge changes both mappings it was given |
| `EntityMappingList.MergeEntityMappingsList` | packages/core/mappers/entity_mapping.ts:60-118 | the nested loops put every mapping of an entity, in order, on the skeleton of the entity, which keeps its id, name and permission for additional fields |
| `EntityMappingList.ListAgreesWithMerge` | packages/core/mappers/entity_mapping.ts:60-118 | for each entity the mapped entries and the object are those of the single merge, the leading entries are the entity's fields in order, an entry is additional exactly when it is none, and each is attributed to who mapped it |
| `FieldMapping.ConfigPartitions` | packages/core/lib/entity.ts:5-38 | mappings are partitioned by whether the entity has the field, and refused exactly when an additional one is not allowed |
| `FieldMapping.ConfigMapsFirst` | packages/core/lib/entity.ts:5-38 | through the config a field is mapped as by the first of its mappings, and by none without mappings |
| `FieldMapping.MapEntityToObjectFields` | packages/core/services/entity_record_service.ts:156-178 | the reduction over a record's entries, failing on an unmapped key |
| `FieldMapping.FailsOnUnmapped` | packages/core/services/entity_record_service.ts:156-178 | it fails exactly when some key is not mapped |
| `FieldMapping.MapObjectToEntityFields` | packages/core/services/entity_record_service.ts:180-213 | the two reductions over the config's mappings |
| `FieldMapping.RoundTrip` | packages/core/services/entity_record_service.ts:156-213 | under an injective config a record comes back with its core part on top and its additional part below if and only if no value is falsy and no core field is called additionalFields |
| `FieldMapping.RoundTripLoses` | packages/core/services/entity_record_service.ts:185-210 | a record with one falsy value, or one core field called additionalFields, does not come back |
| `FieldMapping.InheritingPasses` | packages/core/services/entity_record_service.ts:156-213 | without a mapping of fields a record passes both ways unchanged |
| `FieldMapping.MergedConfigIsWellformed` | packages/core/lib/entity.ts:15-38 | the config of a merged mapping meets the round trip's structural condition |
| `DestinationService.VersionDeterminesRow` | packages/core/services/destination_service.ts:198-219 | over any series of creations and compare-and-bump updates, id and version determine the row |
| `DestinationService.DestinationService.UpdateDestination` | packages/core/services/destination_service.ts:198-219 | an update succeeds exactly on the version the client saw, with the type it has and a name, and bumps the version; name, application and settings are those sent, and the secret is the one sent or else the one read; what is refused, not found or in conflict is told apart |
| `DestinationService.DestinationService.GetWriterByDestination` | packages/core/services/destination_service.ts:241-255 | for any destination ever read, and whatever came in between: a postgres destination gets a postgres writer built from just that version, a managed one the managed writer, any other none |
| `DestinationService.LookUpAfterUpdate` | packages/core/services/destination_service.ts:198-266 | a lookup after an update gives a writer with the settings sent, and with the secret sent or else the one stored before |
| `DestinationService.ReadIsCurrent` | packages/core/services/destination_service.ts:206-219 | a row read between the client's look at a version and the update on that version is the row updated, so the secret kept is not an older one |

## Left out

- The foreign key from a sync to its entity: inserting a sync for an entity that has been deleted while it is still configured throws in the source.
- A schedule that has no row is not changed by hand in Temporal.
- Changing the provider of an existing connection; no operation does it.
- Adding an object to a provider with `enableSync` (packages/core/services/provider_service.ts:159-181), which rewrites a sync config without recording the change; nothing in the repository calls it that way.
- Customers, whose foreign key a new connection needs, and the credentials that an upsert writes.
- Others' writes between the failed creation and the upsert of the OAuth callback, in the program; the outbox machine has the upsert as a write of its own, at any moment.
- Reading rows outside the transaction that deletes or creates their dependants, for connections and sync configs: read and transaction are taken as one step.
- Terminating running workflows when schedules are deleted, triggering a run on creation or on request, search attributes and logging.
- A period of zero or less: `periodMs` is taken to be positive when it is set.
- A `fullSyncEveryNIncrementals` below one, which validation refuses, counts as unset.
- `emitted_at` columns and the mapping of record columns are part of a row's `data`; stripping null characters, CSV and JSON encoding are not modelled.
- Others' statements between two statements of one write: writing a stream is one step of the run machine (what it may leave half-done is modelled).
- The paused flag, which turns the API's upserts off for a sync, and pausing a sync from the catch block after certain errors; the outbox machine has the pause as a write at any moment.
- Steps of writers between the statements of one worker pass in the `SyncService` program; the outbox machine has them, and its theorems are about all interleavings.
- Objects whose names give the same table name: the managed table is taken to hold one object, as its query does.
- Rows without a modification stamp: every table declares the column as not null.
- An attempt of an activity that goes on writing after Temporal has given up on it.
- Entity passes write through the same machine; their own table layout and field selection are not modelled.
- HubSpot leads as common objects are skipped by the source without writing; the model has no such exception.
- `getPaginationParams` and `getPaginationResult`, total counts, cursor encoding, and the hoisting of unified data onto a row.
- The uniqueness of destination names, encryption, connection tests, and the fields of each destination type beyond settings and secret.
- Pagination.WalksAreSafe: is about an unchanged table and filter; rows that come or go between requests are not modelled.
- SyncRunData.WatermarkIsHonest: says nothing for a watermark of 0, which the source treats as none and answers with a full fetch.
