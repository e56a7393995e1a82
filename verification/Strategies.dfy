/** The strategy and period of a sync are computed in three places: when the API
    creates a connection, when the reconciler creates the sync, and when part three
    of the reconciler stores the strategy and upserts the schedule. Exactly when the
    three agree. */
module Strategies {
  import opened SyncTypes
  import opened Reconcile
  import opened Outbox
  import opened OutboxInvariant
  import opened OutboxTheorems

  /** The first object of the name, if there is one. */
  ghost predicate IsFirst(objects: seq<ObjectConfig>, name: string, o: Option<ObjectConfig>) {
    match o
    case None => !Names(objects, name)
    case Some(x) => exists i :: 0 <= i < |objects| && objects[i] == x && x.name == name && forall j :: 0 <= j < i ==> objects[j].name != name
  }

  lemma {:induction false} FindsFirst(objects: seq<ObjectConfig>, name: string, o: Option<ObjectConfig>)
    requires IsFirst(objects, name, o)
    ensures Find(objects, name) == o
  {
    if objects != [] {
      if objects[0].name == name {
        assert objects[0] in objects;
      } else {
        assert objects == [objects[0]] + objects[1..];
        if o.Some? {
          var i :| 0 <= i < |objects| && objects[i] == o.value && forall j :: 0 <= j < i ==> objects[j].name != name;
          assert objects[1..][i - 1] == o.value;
        }
        FindsFirst(objects[1..], name, o);
      }
    }
  }

  /** What the provider's config says about the object itself. */
  function OverrideOf(p: Option<ObjectConfig>): Option<StrategyConfig> {
    if p.Some? then p.value.syncStrategyOverride else None
  }

  lemma StoredFrom(data: ConfigData, t: ObjectType, name: string, p: Option<ObjectConfig>)
    requires IsFirst(ObjectsOf(data, t), name, p)
    ensures var c := if OverrideOf(p).Some? then OverrideOf(p).value else data.defaultConfig;
            && StrategyOf(data, ObjectKey(t, name)) == Strategy(OrDefault(c.strategy), c.fullSyncEveryNIncrementals)
            && PeriodOf(data, ObjectKey(t, name)) == if c.periodMs.Some? then c.periodMs.value else FIFTEEN_MINUTES_MS
  {
    FindsFirst(ObjectsOf(data, t), name, p);
  }

  /** At any quiet moment of any run, whatever a sync was created with: its row has the
      strategy and its schedule the period that the provider's config gives its object
      (the first of the name), or else by default; an entity has the default's. */
  lemma QuietSyncIsConfigured(run: seq<Moment>, i: nat, s: Id, p: Option<ObjectConfig>)
    requires Run(run) && Start(run[0]) && Careful(run) && i < |run| && run[i].worker == Idle && QueuesEmpty(run[i].store)
    requires s in run[i].store.rows
    ensures var st := run[i].store; var row := st.rows[s];
            && row.config in st.configs && s in st.schedules
            && var data := st.configs[row.config].data;
            (row.key.ObjectKey? ==> IsFirst(ObjectsOf(data, row.key.objectType), row.key.name, p)) ==>
              var c := if row.key.ObjectKey? && OverrideOf(p).Some? then OverrideOf(p).value else data.defaultConfig;
              && row.strategy == Strategy(OrDefault(c.strategy), c.fullSyncEveryNIncrementals)
              && st.schedules[s].every == if c.periodMs.Some? then c.periodMs.value else 900000
  {
    var st := run[i].store;
    assert Agrees(st, s) by {
      QuietIsConverged(run, i);
      hide Agrees, Run, Start, Careful, QueuesEmpty, ExactFor;
    }
    hide Run, Start, Careful, QueuesEmpty;
    var row := st.rows[s];
    var data := st.configs[row.config].data;
    if row.key.ObjectKey? && IsFirst(ObjectsOf(data, row.key.objectType), row.key.name, p) {
      StoredFrom(data, row.key.objectType, row.key.name, p);
      hide StrategyOf, PeriodOf, IsFirst;
    }
  }

  /** A strategy read field by field: the override's, or else the default's. */
  predicate SameFieldwise(v: Option<StrategyConfig>, d: StrategyConfig, strategy: Strategy) {
    && strategy.strategyType == OrDefault(if v.Some? && v.value.strategy.Some? then v.value.strategy else d.strategy)
    && strategy.fullSyncEveryNIncrementals
       == if v.Some? && v.value.fullSyncEveryNIncrementals.Some? then v.value.fullSyncEveryNIncrementals else d.fullSyncEveryNIncrementals
  }

  lemma CreatedFieldwise(data: ConfigData, t: ObjectType, o: ObjectConfig)
    ensures SameFieldwise(o.syncStrategyOverride, data.defaultConfig, ObjectArgs(data, t, o).strategy)
    ensures ObjectArgs(data, t, o).key == ObjectKey(t, o.name)
  {
  }

  lemma ObjectIsDesired(data: ConfigData, override: Option<ConnectionSyncConfig>, t: ObjectType, o: ObjectConfig)
    requires match t case Common => o in data.commonObjects case Standard => o in StandardObjects(data, override) case Custom => o in CustomObjects(data, override)
    ensures ObjectArgs(data, t, o) in Desired(data, override)
  {
    var x := ObjectArgsList(data, Common, data.commonObjects);
    var y := ObjectArgsList(data, Standard, StandardObjects(data, override));
    var z := ObjectArgsList(data, Custom, CustomObjects(data, override));
    match t {
      case Common => var i :| 0 <= i < |data.commonObjects| && data.commonObjects[i] == o; assert x[i] == ObjectArgs(data, t, o);
      case Standard =>
        var objects := StandardObjects(data, override);
        var i :| 0 <= i < |objects| && objects[i] == o;
        assert y[i] == ObjectArgs(data, t, o);
      case Custom =>
        var objects := CustomObjects(data, override);
        var i :| 0 <= i < |objects| && objects[i] == o;
        assert z[i] == ObjectArgs(data, t, o);
    }
  }

  // ---- Syncs the reconciler creates from the provider's lists

  /** The stored strategy is the one of creation if and only if no override hides a
      default that differs from what part three assumes. */
  lemma ReconciledStrategyIsStored(data: ConfigData, t: ObjectType, o: ObjectConfig)
    requires IsFirst(ObjectsOf(data, t), o.name, Some(o))
    ensures ObjectArgs(data, t, o) in Desired(data, None)
    ensures ObjectArgs(data, t, o).strategy == StrategyOf(data, ObjectKey(t, o.name)) <==>
            var v, d := o.syncStrategyOverride, data.defaultConfig;
            v.None? || ((v.value.strategy.None? ==> d.strategy != Some(FullOnly))
                        && (v.value.fullSyncEveryNIncrementals.None? ==> d.fullSyncEveryNIncrementals.None?))
  {
    ObjectIsDesired(data, None, t, o);
    StoredFrom(data, t, o.name, Some(o));
    CreatedFieldwise(data, t, o);
    hide StrategyOf, ObjectArgs, Desired, IsFirst;
    var v, d := o.syncStrategyOverride, data.defaultConfig;
    var created, stored := ObjectArgs(data, t, o).strategy, StrategyOf(data, ObjectKey(t, o.name));
    assert v.Some? ==> (created.strategyType == stored.strategyType <==> (v.value.strategy.None? ==> d.strategy != Some(FullOnly)));
    assert v.Some? ==> (created.fullSyncEveryNIncrementals == stored.fullSyncEveryNIncrementals
                        <==> (v.value.fullSyncEveryNIncrementals.None? ==> d.fullSyncEveryNIncrementals.None?));
  }

  /** The schedule's period is the override's, or else the default's, or else fifteen
      minutes, if and only if no override hides a default period of another length. */
  lemma PeriodIsFieldwise(data: ConfigData, t: ObjectType, o: ObjectConfig)
    requires IsFirst(ObjectsOf(data, t), o.name, Some(o))
    ensures var v, d := o.syncStrategyOverride, data.defaultConfig;
            var wanted := if v.Some? && v.value.periodMs.Some? then v.value.periodMs else d.periodMs;
            PeriodOf(data, ObjectKey(t, o.name)) == (if wanted.Some? then wanted.value else 900000) <==>
            v.None? || v.value.periodMs.Some? || d.periodMs.None? || d.periodMs == Some(900000)
  {
    StoredFrom(data, t, o.name, Some(o));
    hide PeriodOf, StrategyOf;
  }

  /** An override with nothing but a number of incrementals: the sync is created
      `full only`, then stored as incremental, and runs every fifteen minutes where
      the config's default says every minute. */
  lemma OverrideHidesDefaults()
    ensures exists data: ConfigData, o: ObjectConfig ::
              && o in data.standardObjects && ObjectArgs(data, Standard, o) in Desired(data, None)
              && ObjectArgs(data, Standard, o).strategy == Strategy(FullOnly, Some(3))
              && StrategyOf(data, ObjectKey(Standard, o.name)) == Strategy(FullThenIncremental, Some(3))
              && data.defaultConfig.periodMs == Some(60000) && PeriodOf(data, ObjectKey(Standard, o.name)) == 900000
  {
    var d := StrategyConfig(Some(60000), Some(FullOnly), None, None);
    var o := ObjectConfig("a", Some(StrategyConfig(None, None, Some(3), None)));
    var data := ConfigData(d, [], [o], [], []);
    assert data.standardObjects[0] == o;
    ObjectIsDesired(data, None, Standard, o);
    StoredFrom(data, Standard, "a", Some(o));
  }

  // ---- Syncs the reconciler creates from a connection's own lists

  /** Part three looks only at the provider's config. With a list of its own, the
      strategy of creation is the stored one if and only if the provider's object of
      that name, or the default if there is none, happens to say the same. */
  lemma OwnStrategyIsStored(data: ConfigData, own: ConnectionSyncConfig, t: ObjectType, o: ObjectConfig, p: Option<ObjectConfig>)
    requires (t == Standard && o in own.standardObjects) || (t == Custom && o in own.customObjects)
    requires IsFirst(ObjectsOf(data, t), o.name, p)
    ensures ObjectArgs(data, t, o) in Desired(data, Some(own))
    ensures ObjectArgs(data, t, o).strategy == StrategyOf(data, ObjectKey(t, o.name)) <==>
            SameFieldwise(o.syncStrategyOverride, data.defaultConfig,
              if OverrideOf(p).Some? then Strategy(OrDefault(OverrideOf(p).value.strategy), OverrideOf(p).value.fullSyncEveryNIncrementals)
              else Strategy(OrDefault(data.defaultConfig.strategy), data.defaultConfig.fullSyncEveryNIncrementals))
  {
    ObjectIsDesired(data, Some(own), t, o);
    StoredFrom(data, t, o.name, p);
    CreatedFieldwise(data, t, o);
    hide StrategyOf, ObjectArgs, Desired, IsFirst;
  }

  /** Likewise a period of its own is the schedule's if and only if the provider's
      config happens to say the same. */
  lemma OwnPeriodIsUsed(data: ConfigData, own: ConnectionSyncConfig, t: ObjectType, o: ObjectConfig, p: Option<ObjectConfig>)
    requires (t == Standard && o in own.standardObjects) || (t == Custom && o in own.customObjects)
    requires IsFirst(ObjectsOf(data, t), o.name, p)
    requires o.syncStrategyOverride.Some? && o.syncStrategyOverride.value.periodMs.Some?
    ensures PeriodOf(data, ObjectKey(t, o.name)) == o.syncStrategyOverride.value.periodMs.value <==>
            var q := if OverrideOf(p).Some? then OverrideOf(p).value.periodMs else data.defaultConfig.periodMs;
            q == o.syncStrategyOverride.value.periodMs || (q.None? && o.syncStrategyOverride.value.periodMs == Some(900000))
  {
    StoredFrom(data, t, o.name, p);
    hide StrategyOf, PeriodOf, IsFirst;
  }

  /** A connection that wants an object in full every minute gets it incrementally
      every fifteen. */
  lemma OwnSettingsAreIgnored()
    ensures exists data: ConfigData, own: ConnectionSyncConfig, o: ObjectConfig ::
              && o in own.standardObjects && ObjectArgs(data, Standard, o) in Desired(data, Some(own))
              && o.syncStrategyOverride == Some(StrategyConfig(Some(60000), Some(FullOnly), None, None))
              && ObjectArgs(data, Standard, o).strategy == Strategy(FullOnly, None)
              && StrategyOf(data, ObjectKey(Standard, o.name)) == Strategy(FullThenIncremental, None)
              && PeriodOf(data, ObjectKey(Standard, o.name)) == 900000
  {
    var data := ConfigData(StrategyConfig(None, None, None, None), [], [], [], []);
    var o := ObjectConfig("a", Some(StrategyConfig(Some(60000), Some(FullOnly), None, None)));
    var own := ConnectionSyncConfig([o], []);
    assert own.standardObjects[0] == o;
    ObjectIsDesired(data, Some(own), Standard, o);
    StoredFrom(data, Standard, "a", None);
  }

  // ---- Syncs the API creates with the connection

  /** They take the default's strategy and no number of incrementals. It is the
      stored one if and only if the object's override, or else the default, sets no
      number, and an override is of the default's type. */
  lemma ApiStrategyIsStored(data: ConfigData, paused: bool, i: nat, p: Option<ObjectConfig>)
    requires i < |ConnectionArgs(data, paused)| && ConnectionArgs(data, paused)[i].key.ObjectKey?
    requires var k := ConnectionArgs(data, paused)[i].key; IsFirst(ObjectsOf(data, k.objectType), k.name, p)
    ensures var a, v, d := ConnectionArgs(data, paused)[i], OverrideOf(p), data.defaultConfig;
            a.strategy == StrategyOf(data, a.key) <==>
            if v.None? then d.fullSyncEveryNIncrementals.None?
            else v.value.fullSyncEveryNIncrementals.None? && OrDefault(v.value.strategy) == OrDefault(d.strategy)
  {
    var k := ConnectionArgs(data, paused)[i].key;
    StoredFrom(data, k.objectType, k.name, p);
    hide StrategyOf, PeriodOf, Desired, IsFirst;
  }

  /** An object the config wants `full only` is created as incremental by the API. */
  lemma ApiIgnoresOverride()
    ensures exists data: ConfigData, a: SyncArgs ::
              && a in ConnectionArgs(data, false) && a.key == ObjectKey(Standard, "a")
              && a.strategy == Strategy(FullThenIncremental, None) && StrategyOf(data, a.key) == Strategy(FullOnly, None)
  {
    var o := ObjectConfig("a", Some(StrategyConfig(None, Some(FullOnly), None, None)));
    var data := ConfigData(StrategyConfig(None, None, None, None), [], [o], [], []);
    assert data.standardObjects[0] == o;
    StoredFrom(data, Standard, "a", Some(o));
    ObjectIsDesired(data, None, Standard, o);
    var d, args := Desired(data, None), ConnectionArgs(data, false);
    var i :| 0 <= i < |d| && d[i] == ObjectArgs(data, Standard, o);
    assert args[i].key == d[i].key && args[i] in args;
  }

  // ---- Entity syncs

  /** Created by either, an entity sync has no number of incrementals; part three
      stores the default's. */
  lemma EntityStrategyIsStored(data: ConfigData, paused: bool, i: nat)
    requires i < |ConnectionArgs(data, paused)| && ConnectionArgs(data, paused)[i].key.EntityKey?
    ensures var k := ConnectionArgs(data, paused)[i].key;
            && ConnectionArgs(data, paused)[i].strategy == EntityArgs(data, k.entityId).strategy
            && (EntityArgs(data, k.entityId).strategy == StrategyOf(data, k) <==> data.defaultConfig.fullSyncEveryNIncrementals.None?)
  {
    hide Desired;
  }

  lemma EntityNumberComesLater()
    ensures exists data: ConfigData :: "e" in data.entities && EntityArgs(data, "e") in Desired(data, None)
              && EntityArgs(data, "e").strategy == Strategy(FullThenIncremental, None)
              && StrategyOf(data, EntityKey("e")) == Strategy(FullThenIncremental, Some(3))
  {
    var data := ConfigData(StrategyConfig(None, None, Some(3), None), [], [], [], ["e"]);
    assert EntityArgsList(data)[0] == EntityArgs(data, "e");
    assert data.entities[0] == "e";
  }
}
