/** Updating a sync config: the guard that refuses updates which would delete
    syncs, and what the reconciliation after an accepted update deletes. */
module SyncConfigService {
  import opened SyncTypes
  import opened Reconcile
  import opened Outbox

  // ---- validateSyncConfigParams

  predicate Distinct<T(==)>(s: seq<T>) {
    forall i, j :: 0 <= i < j < |s| ==> s[i] != s[j]
  }

  function ObjectNames(objects: seq<ObjectConfig>): (names: seq<string>)
    ensures |names| == |objects|
    ensures forall i :: 0 <= i < |objects| ==> names[i] == objects[i].name
    ensures forall n :: n in names <==> Names(objects, n)
  {
    var names := seq(|objects|, i requires 0 <= i < |objects| => objects[i].name);
    assert forall i :: 0 <= i < |objects| ==> names[i] in names && objects[i] in objects;
    names
  }

  /** `full only` with a number of incrementals, or a number below one. */
  predicate BadNumber(c: StrategyConfig) {
    c.fullSyncEveryNIncrementals.Some? &&
    (c.fullSyncEveryNIncrementals.value < 1 || c.strategy == Some(FullOnly))
  }

  predicate BadOverride(o: ObjectConfig) {
    o.syncStrategyOverride.Some? && BadNumber(o.syncStrategyOverride.value)
  }

  /** Duplicates among the custom objects are not looked for. */
  predicate ValidParams(data: ConfigData) {
    && Distinct(ObjectNames(data.commonObjects)) && Distinct(ObjectNames(data.standardObjects)) && Distinct(data.entities)
    && !BadNumber(data.defaultConfig)
    && (forall o :: o in data.commonObjects + data.customObjects + data.standardObjects ==> !BadOverride(o))
  }

  /** The config sets the period, strategy and number of c, by default or for an object. */
  ghost predicate Sets(data: ConfigData, c: StrategyConfig) {
    c == data.defaultConfig
    || exists o :: (o in data.commonObjects || o in data.standardObjects || o in data.customObjects) && o.syncStrategyOverride == Some(c)
  }

  /** A number of incrementals is positive, and there is none with full syncs alone. */
  predicate NumberFits(strategy: Strategy) {
    strategy.fullSyncEveryNIncrementals.Some? ==> strategy.fullSyncEveryNIncrementals.value >= 1 && strategy.strategyType == FullThenIncremental
  }

  /** Parameters are refused exactly for a repeated common object, standard object or
      entity, or for a number that does not fit its own strategy. */
  lemma ValidIff(data: ConfigData)
    ensures ValidParams(data) <==>
            && (forall i, j :: 0 <= i < j < |data.commonObjects| ==> data.commonObjects[i].name != data.commonObjects[j].name)
            && (forall i, j :: 0 <= i < j < |data.standardObjects| ==> data.standardObjects[i].name != data.standardObjects[j].name)
            && (forall i, j :: 0 <= i < j < |data.entities| ==> data.entities[i] != data.entities[j])
            && (forall c :: Sets(data, c) ==> NumberFits(Strategy(OrDefault(c.strategy), c.fullSyncEveryNIncrementals)))
  {
    NumbersFitIff(data);
    SameNames(data.commonObjects);
    SameNames(data.standardObjects);
    hide ObjectNames, Sets, NumberFits, BadNumber, BadOverride;
  }

  lemma NumbersFitIff(data: ConfigData)
    ensures (forall c :: Sets(data, c) ==> NumberFits(Strategy(OrDefault(c.strategy), c.fullSyncEveryNIncrementals))) <==>
            && !BadNumber(data.defaultConfig)
            && (forall o :: o in data.commonObjects + data.customObjects + data.standardObjects ==> !BadOverride(o))
  {
    forall c: StrategyConfig ensures NumberFits(Strategy(OrDefault(c.strategy), c.fullSyncEveryNIncrementals)) <==> !BadNumber(c) {
    }
    hide BadNumber, NumberFits;
    assert Sets(data, data.defaultConfig);
    forall o | o in data.commonObjects + data.customObjects + data.standardObjects && o.syncStrategyOverride.Some?
      ensures Sets(data, o.syncStrategyOverride.value)
    {
    }
    forall c | Sets(data, c) && c != data.defaultConfig
      ensures exists o :: o in data.commonObjects + data.customObjects + data.standardObjects && o.syncStrategyOverride == Some(c)
    {
      var o :| (o in data.commonObjects || o in data.standardObjects || o in data.customObjects) && o.syncStrategyOverride == Some(c);
      assert o in data.commonObjects + data.customObjects + data.standardObjects;
    }
    hide Sets;
  }

  lemma SameNames(objects: seq<ObjectConfig>)
    ensures Distinct(ObjectNames(objects)) <==> forall i, j :: 0 <= i < j < |objects| ==> objects[i].name != objects[j].name
  {
    var names := ObjectNames(objects);
    assert forall i :: 0 <= i < |objects| ==> names[i] == objects[i].name;
    hide ObjectNames;
    assert forall i, j :: 0 <= i < j < |objects| ==> (names[i] != names[j] <==> objects[i].name != objects[j].name);
  }

  lemma {:induction false} FoundIsListed(objects: seq<ObjectConfig>, name: string)
    ensures Find(objects, name).Some? ==> Find(objects, name).value in objects
  {
    if objects != [] {
      FoundIsListed(objects[1..], name);
    }
  }

  /** Under a valid config the strategy the reconciler stores for a sync always fits; the
      one it creates a sync with fits exactly when override and default, of which it takes
      field by field, do not combine full syncs alone with a number. */
  lemma StoredStrategyFits(data: ConfigData, key: SyncKey)
    requires ValidParams(data)
    ensures NumberFits(StrategyOf(data, key))
  {
    ValidIff(data);
    if key.ObjectKey? {
      FoundIsListed(ObjectsOf(data, key.objectType), key.name);
    }
    assert Sets(data, StrategyConfigOf(data, key));
    hide ValidParams, Sets, Find;
  }

  lemma CreatedStrategyFitsIff(data: ConfigData, t: ObjectType, o: ObjectConfig)
    requires ValidParams(data) && (o in data.commonObjects || o in data.standardObjects || o in data.customObjects)
    ensures NumberFits(ObjectArgs(data, t, o).strategy) <==>
            var v, d := o.syncStrategyOverride, data.defaultConfig;
            v.Some? ==>
              && (v.value.strategy == Some(FullOnly) ==> d.fullSyncEveryNIncrementals.None?)
              && (v.value.strategy == None && v.value.fullSyncEveryNIncrementals.Some? ==> d.strategy != Some(FullOnly))
  {
    ValidIff(data);
    assert Sets(data, data.defaultConfig) && (o.syncStrategyOverride.Some? ==> Sets(data, o.syncStrategyOverride.value));
    hide ValidParams, Sets;
  }

  lemma ArgsListKeys(data: ConfigData, objectType: ObjectType, objects: seq<ObjectConfig>)
    ensures DistinctKeys(ObjectArgsList(data, objectType, objects)) <==> Distinct(ObjectNames(objects))
  {
    var args, names := ObjectArgsList(data, objectType, objects), ObjectNames(objects);
    assert forall i :: 0 <= i < |objects| ==> args[i].key == ObjectKey(objectType, names[i]);
    assert forall i, j :: 0 <= i < j < |objects| ==> (args[i].key != args[j].key <==> names[i] != names[j]);
  }

  lemma EntityListKeys(data: ConfigData)
    ensures DistinctKeys(EntityArgsList(data)) <==> Distinct(data.entities)
  {
    var args := EntityArgsList(data);
    assert forall i :: 0 <= i < |data.entities| ==> args[i].key == EntityKey(data.entities[i]);
    assert forall i, j :: 0 <= i < j < |data.entities| ==> (args[i].key != args[j].key <==> data.entities[i] != data.entities[j]);
  }

  lemma DistinctConcat(a: seq<SyncArgs>, b: seq<SyncArgs>)
    requires forall x, y :: x in a && y in b ==> x.key != y.key
    ensures DistinctKeys(a + b) <==> DistinctKeys(a) && DistinctKeys(b)
  {
    assert forall i :: 0 <= i < |a| ==> (a + b)[i] == a[i];
    assert forall i :: 0 <= i < |b| ==> (a + b)[|a| + i] == b[i];
  }

  lemma KindsAreApart(data: ConfigData, objectType: ObjectType, objects: seq<ObjectConfig>)
    ensures forall x :: x in ObjectArgsList(data, objectType, objects) ==> x.key.ObjectKey? && x.key.objectType == objectType
    ensures forall x :: x in EntityArgsList(data) ==> x.key.EntityKey?
  {
    hide Names;
  }

  /** With valid parameters, creating a connection does not fail on a duplicate
      sync exactly when the custom objects are distinct too. */
  lemma ConnectionCanBeCreated(data: ConfigData)
    requires ValidParams(data)
    ensures DistinctKeys(Desired(data, None)) <==> Distinct(ObjectNames(data.customObjects))
  {
    var a, b := ObjectArgsList(data, Common, data.commonObjects), ObjectArgsList(data, Standard, data.standardObjects);
    var c, e := ObjectArgsList(data, Custom, data.customObjects), EntityArgsList(data);
    ArgsListKeys(data, Common, data.commonObjects);
    ArgsListKeys(data, Standard, data.standardObjects);
    ArgsListKeys(data, Custom, data.customObjects);
    EntityListKeys(data);
    assert Desired(data, None) == a + b + c + e;
    hide Desired, Distinct, DistinctKeys, BadOverride, BadNumber;
    KindsAreApart(data, Common, data.commonObjects);
    KindsAreApart(data, Standard, data.standardObjects);
    KindsAreApart(data, Custom, data.customObjects);
    hide ObjectArgsList, EntityArgsList;
    DistinctConcat(a, b);
    DistinctConcat(a + b, c);
    DistinctConcat(a + b + c, e);
  }

  /** A config with one custom object twice passes validation all the same. */
  lemma RepeatedObjectPasses()
    ensures exists data: ConfigData :: ValidParams(data) && !DistinctKeys(Desired(data, None))
  {
    var o := ObjectConfig("deal", None);
    var data := ConfigData(StrategyConfig(None, None, None, None), [], [], [o, o], []);
    var names := ObjectNames(data.customObjects);
    assert names[0] == names[1] && !Distinct(names);
    assert ValidParams(data);
    ConnectionCanBeCreated(data);
  }

  // ---- #diffAndCountAffectedSyncs

  /** The old config names the key and the new one does not. */
  predicate Dropped(old_: ConfigData, new_: ConfigData, key: SyncKey) {
    match key
    case EntityKey(e) => e in old_.entities && e !in new_.entities
    case ObjectKey(t, o) => Names(ObjectsOf(old_, t), o) && !Names(ObjectsOf(new_, t), o)
  }

  /** The syncs the update is said to delete. */
  function Affected(rows: map<Id, SyncRow>, id: Id, old_: ConfigData, new_: ConfigData): set<Id> {
    set s | s in rows && rows[s].config == id && Dropped(old_, new_, rows[s].key)
  }

  predicate KeyIn(key: SyncKey, objectType: Option<ObjectType>, names: seq<string>) {
    match key
    case EntityKey(e) => objectType == None && e in names
    case ObjectKey(t, o) => objectType == Some(t) && o in names
  }

  function RowsWhere(rows: map<Id, SyncRow>, id: Id, objectType: Option<ObjectType>, names: seq<string>): set<Id> {
    set s | s in rows && rows[s].config == id && KeyIn(rows[s].key, objectType, names)
  }

  /** The names a kind of list lost. */
  ghost predicate AreDropped(names: seq<string>, old_: seq<ObjectConfig>, new_: seq<ObjectConfig>) {
    forall n :: n in names <==> Names(old_, n) && !Names(new_, n)
  }

  lemma AffectedRow(rows: map<Id, SyncRow>, id: Id, old_: ConfigData, new_: ConfigData,
                    common: seq<string>, standard: seq<string>, custom: seq<string>, entities: seq<string>, s: Id)
    requires AreDropped(common, old_.commonObjects, new_.commonObjects) && AreDropped(standard, old_.standardObjects, new_.standardObjects)
    requires AreDropped(custom, old_.customObjects, new_.customObjects)
    requires forall n :: n in entities <==> n in old_.entities && n !in new_.entities
    ensures var a, b := s in RowsWhere(rows, id, Some(Common), common), s in RowsWhere(rows, id, Some(Standard), standard);
            var c, e := s in RowsWhere(rows, id, Some(Custom), custom), s in RowsWhere(rows, id, None, entities);
            && (s in Affected(rows, id, old_, new_) <==> a || b || c || e)
            && !(a && b) && !(c && (a || b)) && !(e && (a || b || c))
  {
    hide Names;
  }

  /** The four counts are of disjoint sets that make up the affected syncs. */
  lemma AffectedByKind(rows: map<Id, SyncRow>, id: Id, old_: ConfigData, new_: ConfigData,
                       common: seq<string>, standard: seq<string>, custom: seq<string>, entities: seq<string>)
    requires AreDropped(common, old_.commonObjects, new_.commonObjects) && AreDropped(standard, old_.standardObjects, new_.standardObjects)
    requires AreDropped(custom, old_.customObjects, new_.customObjects)
    requires forall n :: n in entities <==> n in old_.entities && n !in new_.entities
    ensures |Affected(rows, id, old_, new_)| ==
            |RowsWhere(rows, id, Some(Common), common)| + |RowsWhere(rows, id, Some(Standard), standard)|
            + |RowsWhere(rows, id, Some(Custom), custom)| + |RowsWhere(rows, id, None, entities)|
  {
    hide *;
    var a, b := RowsWhere(rows, id, Some(Common), common), RowsWhere(rows, id, Some(Standard), standard);
    var c, e := RowsWhere(rows, id, Some(Custom), custom), RowsWhere(rows, id, None, entities);
    forall s ensures (s in Affected(rows, id, old_, new_) <==> s in a || s in b || s in c || s in e)
                     && !(s in a && s in b) && !(s in c && (s in a || s in b)) && !(s in e && (s in a || s in b || s in c))
    {
      AffectedRow(rows, id, old_, new_, common, standard, custom, entities, s);
    }
    assert Affected(rows, id, old_, new_) == a + b + c + e;
    DisjointSizes(a, b, c, e);
  }

  lemma DisjointSizes(a: set<Id>, b: set<Id>, c: set<Id>, e: set<Id>)
    requires a !! b && (a + b) !! c && (a + b + c) !! e
    ensures |a + b + c + e| == |a| + |b| + |c| + |e|
  {
  }

  /** The names of the old list that the new list lacks. */
  method Deleted(names: seq<string>, kept: seq<string>) returns (deleted: seq<string>)
    ensures forall n :: n in deleted <==> n in names && n !in kept
  {
    var newNames := set n | n in kept;
    deleted := [];
    for i := 0 to |names|
      invariant forall n :: n in deleted <==> n in names[..i] && n !in kept
    {
      assert names[..i + 1] == names[..i] + [names[i]];
      if names[i] !in newNames {
        deleted := deleted + [names[i]];
      }
    }
    assert names[..|names|] == names;
  }

  /** An event for t that was not recorded before, and none is lost. */
  ghost predicate Records(changes: map<Id, Id>, changes': map<Id, Id>, t: Id) {
    && (forall e :: e in changes ==> e in changes' && changes'[e] == changes[e])
    && (exists e :: e in changes' && e !in changes && changes'[e] == t)
  }

  datatype Outcome = Accepted | NotFound | Invalid | WouldDelete(count: nat)

  lemma RecordsOne(changes: map<Id, Id>, e: Id, t: Id)
    requires e !in changes
    ensures Records(changes, changes[e := t], t)
  {
    assert e in changes[e := t];
  }

  lemma RecordsDeletion(changes: map<Id, Id>, ids: set<Id>, next: Id)
    requires (forall s :: s in ids ==> s < next) && (forall e :: e in changes ==> e < next)
    ensures forall s :: s in ids ==> Records(changes, AddChanges(changes, ids, next), s)
  {
    hide AddChanges;
    forall s | s in ids ensures Records(changes, AddChanges(changes, ids, next), s) {
      assert AddedFor(ids, next, next + s);
    }
  }

  class SyncConfigService {
    var store: Store

    constructor (st: Store)
      ensures store == st
    {
      store := st;
    }

    /** `sync.count`, skipped when there is nothing to look for. */
    method Count(id: Id, objectType: Option<ObjectType>, names: seq<string>) returns (count: nat)
      ensures count == |RowsWhere(store.rows, id, objectType, names)|
    {
      count := 0;
      if |names| > 0 {
        count := |RowsWhere(store.rows, id, objectType, names)|;
      } else {
        assert RowsWhere(store.rows, id, objectType, names) == {};
      }
    }

    method DiffAndCountAffectedSyncs(id: Id, params: ConfigData) returns (count: nat)
      requires id in store.configs
      ensures count == |Affected(store.rows, id, store.configs[id].data, params)|
    {
      hide RowsWhere, Affected, Names;
      var data := store.configs[id].data;
      var deletedCommon := Deleted(ObjectNames(data.commonObjects), ObjectNames(params.commonObjects));
      var deletedStandard := Deleted(ObjectNames(data.standardObjects), ObjectNames(params.standardObjects));
      var deletedCustom := Deleted(ObjectNames(data.customObjects), ObjectNames(params.customObjects));
      var deletedEntities := Deleted(data.entities, params.entities);
      count := 0;
      var n := Count(id, Some(Common), deletedCommon);
      count := count + n;
      n := Count(id, Some(Standard), deletedStandard);
      count := count + n;
      n := Count(id, Some(Custom), deletedCustom);
      count := count + n;
      n := Count(id, None, deletedEntities);
      count := count + n;
      AffectedByKind(store.rows, id, data, params, deletedCommon, deletedStandard, deletedCustom, deletedEntities);
    }

    /** An update is refused when it is invalid or would delete syncs and is not
        forced; otherwise it is written with its change event. */
    method Update(id: Id, params: ConfigData, forceDeleteSyncs: bool) returns (r: Outcome)
      requires Ids(store)
      modifies this
      ensures r.Invalid? <==> !ValidParams(params)
      ensures r.NotFound? <==> ValidParams(params) && id !in old(store).configs
      ensures r.WouldDelete? <==>
        && ValidParams(params) && id in old(store).configs && !forceDeleteSyncs
        && Affected(old(store).rows, id, old(store).configs[id].data, params) != {}
      ensures r.WouldDelete? ==> r.count == |Affected(old(store).rows, id, old(store).configs[id].data, params)|
      ensures r.Accepted? ==> id in old(store).configs && store == Apply(old(store), UpdateConfig(id, params))
      ensures r.Accepted? ==> Records(old(store).configChanges, store.configChanges, id)
      ensures !r.Accepted? ==> store == old(store)
    {
      if !ValidParams(params) {
        return Invalid;
      }
      if id !in store.configs {
        return NotFound;
      }
      if !forceDeleteSyncs {
        var affectedSyncsCount := DiffAndCountAffectedSyncs(id, params);
        if affectedSyncsCount > 0 {
          return WouldDelete(affectedSyncsCount);
        }
      }
      store := store.(configs := store.configs[id := store.configs[id].(data := params)],
                      configChanges := store.configChanges[store.next := id],
                      next := store.next + 1);
      RecordsOne(old(store).configChanges, old(store).next, id);
      return Accepted;
    }

    /** Reading the syncs and the transaction are taken as one step. */
    method Delete(id: Id, forceDeleteSyncs: bool) returns (r: Outcome)
      requires Ids(store) && forall s :: s in store.rows ==> store.rows[s].config in store.configs
      modifies this
      ensures r.Accepted? ==> id in old(store).configs && store == Apply(old(store), DeleteConfig(id))
      ensures r.Accepted? ==> Records(old(store).configChanges, store.configChanges, id)
      ensures r.Accepted? ==> forall s :: s in old(store).rows && old(store).rows[s].config == id ==>
                Records(old(store).syncChanges, store.syncChanges, s)
      ensures !r.Accepted? ==> store == old(store)
      ensures r.NotFound? <==> id !in old(store).configs
      ensures !r.Invalid?
      ensures r.WouldDelete? <==> !forceDeleteSyncs && RowsOfConfig(old(store).rows, id) != {}
      ensures r.WouldDelete? ==> r.count == |RowsOfConfig(old(store).rows, id)|
    {
      hide AddChanges, Records;
      var syncs := RowsOfConfig(store.rows, id);
      assert id !in store.configs ==> syncs == {};
      if syncs != {} && !forceDeleteSyncs {
        return WouldDelete(|syncs|);
      }
      if id !in store.configs {
        return NotFound;
      }
      store := store.(configs := store.configs - {id},
                      rows := map s | s in store.rows && store.rows[s].config != id :: store.rows[s],
                      syncChanges := AddChanges(store.syncChanges, syncs, store.next),
                      configChanges := store.configChanges[store.next + store.next := id],
                      next := store.next + store.next + 1);
      RecordsDeletion(old(store).syncChanges, syncs, old(store).next);
      RecordsOne(old(store).configChanges, old(store).next + old(store).next, id);
      return Accepted;
    }
  }

  // ---- What the next reconciliation deletes

  /** The sync is one its connection should have under the config. */
  predicate Within(rows: map<Id, SyncRow>, s: Id, data: ConfigData, override: Option<ConnectionSyncConfig>)
    requires s in rows
  {
    IsDesired(data, override, rows[s].key)
  }

  /** A counted sync that stays all the same: its connection has a list of its
      own, or it is an entity sync and some entity is still configured. */
  predicate StaysAnyway(data: ConfigData, override: Option<ConnectionSyncConfig>, key: SyncKey) {
    match key
    case EntityKey(_) => data.entities != []
    case ObjectKey(Common, _) => false
    case ObjectKey(Standard, _) => override.Some? && override.value.standardObjects != []
    case ObjectKey(Custom, _) => override.Some? && override.value.customObjects != []
  }

  lemma KeptWhen(data: ConfigData, override: Option<ConnectionSyncConfig>, key: SyncKey)
    ensures KeptBy(Desired(data, override), key) <==> IsDesired(data, override, key) || (key.EntityKey? && data.entities != [])
  {
    var args := Desired(data, override);
    DesiredKeys(data, override, key);
    if key.EntityKey? && data.entities != [] {
      DesiredKeys(data, override, EntityKey(data.entities[0]));
      var a :| a in args && a.key == EntityKey(data.entities[0]);
      assert KeptBy(args, key);
    }
    if KeptBy(args, key) && !HasArg(args, key) {
      var a :| a in args && a.key.EntityKey?;
      DesiredKeys(data, override, a.key);
      assert HasArg(args, a.key);
    }
  }

  /** A sync that was asked for before the update is deleted by its connection's
      next reconciliation exactly when it is counted and does not stay anyway. */
  lemma DeletedExactly(rows: map<Id, SyncRow>, s: Id, id: Id, old_: ConfigData, new_: ConfigData,
                       override: Option<ConnectionSyncConfig>, next: Id)
    requires forall t :: t in rows ==> t < next
    requires s in rows && rows[s].config == id && Within(rows, s, old_, override)
    ensures s !in Pass(rows, rows[s].connection, id, Desired(new_, override), next) <==>
            s in Affected(rows, id, old_, new_) && !StaysAnyway(new_, override, rows[s].key)
  {
    KeptWhen(new_, override, rows[s].key);
    hide Desired, KeptBy;
  }

  /** An update accepted without force deletes no sync, whichever connection is
      reconciled and whether or not it has a sync config of its own. */
  lemma AcceptedUpdateDeletesNothing(st: Store, id: Id, params: ConfigData, c: ConnectionId, next: Id)
    requires Ids(st) && id in st.configs && c in st.connections && next >= st.next
    requires forall s :: s in st.rows && st.rows[s].config == id && st.rows[s].connection == c ==>
               Within(st.rows, s, st.configs[id].data, st.connections[c].override)
    requires Affected(st.rows, id, st.configs[id].data, params) == {}
    ensures var rows := Apply(st, UpdateConfig(id, params)).rows;
            forall s :: s in rows && rows[s].config == id ==>
              s in Pass(rows, c, id, Desired(params, st.connections[c].override), next)
  {
    var rows := st.rows;
    var args := Desired(params, st.connections[c].override);
    forall s | s in rows && rows[s].config == id ensures s in Pass(rows, c, id, args, next) {
      if rows[s].connection == c {
        DeletedExactly(rows, s, id, st.configs[id].data, params, st.connections[c].override, next);
      } else {
        PassKeepsSurvivors(rows, c, id, args, next);
      }
    }
  }
}
