/** What one reconciliation of a connection does to the table of syncs. */
module Reconcile {
  import opened SyncTypes

  datatype SyncArgs = SyncArgs(key: SyncKey, paused: bool, strategy: Strategy)

  function ObjectArgs(data: ConfigData, objectType: ObjectType, o: ObjectConfig): SyncArgs {
    var d := data.defaultConfig;
    var v := o.syncStrategyOverride;
    var strategy := if v.Some? && v.value.strategy.Some? then v.value.strategy else d.strategy;
    var everyN := if v.Some? && v.value.fullSyncEveryNIncrementals.Some?
                  then v.value.fullSyncEveryNIncrementals else d.fullSyncEveryNIncrementals;
    SyncArgs(
      ObjectKey(objectType, o.name),
      !AutoStart(data),
      Strategy(if strategy.Some? then strategy.value else FullThenIncremental, everyN))
  }

  function EntityArgs(data: ConfigData, entityId: string): SyncArgs {
    var s := data.defaultConfig.strategy;
    SyncArgs(EntityKey(entityId), !AutoStart(data), Strategy(if s.Some? then s.value else FullThenIncremental, None))
  }

  predicate AutoStart(data: ConfigData) {
    data.defaultConfig.autoStartOnConnection != Some(false)
  }

  function ObjectArgsList(data: ConfigData, objectType: ObjectType, objects: seq<ObjectConfig>): (r: seq<SyncArgs>)
    ensures forall k :: (exists a :: a in r && a.key == k) <==>
                        (k.ObjectKey? && k.objectType == objectType && Names(objects, k.name))
  {
    var r := seq(|objects|, i requires 0 <= i < |objects| => ObjectArgs(data, objectType, objects[i]));
    assert forall i :: 0 <= i < |objects| ==> r[i] in r && r[i].key == ObjectKey(objectType, objects[i].name);
    r
  }

  predicate Names(objects: seq<ObjectConfig>, name: string) {
    exists o :: o in objects && o.name == name
  }

  function EntityArgsList(data: ConfigData): (r: seq<SyncArgs>)
    ensures forall k :: (exists a :: a in r && a.key == k) <==> (k.EntityKey? && k.entityId in data.entities)
  {
    var r := seq(|data.entities|, i requires 0 <= i < |data.entities| => EntityArgs(data, data.entities[i]));
    assert forall i :: 0 <= i < |data.entities| ==> r[i] in r && r[i].key == EntityKey(data.entities[i]);
    r
  }

  function StandardObjects(data: ConfigData, override: Option<ConnectionSyncConfig>): seq<ObjectConfig> {
    if override.Some? && override.value.standardObjects != [] then override.value.standardObjects else data.standardObjects
  }

  function CustomObjects(data: ConfigData, override: Option<ConnectionSyncConfig>): seq<ObjectConfig> {
    if override.Some? && override.value.customObjects != [] then override.value.customObjects else data.customObjects
  }

  /** The syncs a connection should have. */
  function Desired(data: ConfigData, override: Option<ConnectionSyncConfig>): seq<SyncArgs> {
    ObjectArgsList(data, Common, data.commonObjects)
    + ObjectArgsList(data, Standard, StandardObjects(data, override))
    + ObjectArgsList(data, Custom, CustomObjects(data, override))
    + EntityArgsList(data)
  }

  predicate HasArg(args: seq<SyncArgs>, key: SyncKey) {
    exists a :: a in args && a.key == key
  }

  /** Which keys `Desired` asks for, read off the configuration. */
  predicate IsDesired(data: ConfigData, override: Option<ConnectionSyncConfig>, key: SyncKey) {
    match key
    case EntityKey(e) => e in data.entities
    case ObjectKey(Common, o) => Names(data.commonObjects, o)
    case ObjectKey(Standard, o) =>
      if override.None? || override.value.standardObjects == [] then Names(data.standardObjects, o)
      else Names(override.value.standardObjects, o)
    case ObjectKey(Custom, o) =>
      if override.None? || override.value.customObjects == [] then Names(data.customObjects, o)
      else Names(override.value.customObjects, o)
  }

  lemma DesiredKeys(data: ConfigData, override: Option<ConnectionSyncConfig>, key: SyncKey)
    ensures HasArg(Desired(data, override), key) <==> IsDesired(data, override, key)
  {
    var a := ObjectArgsList(data, Common, data.commonObjects);
    var b := ObjectArgsList(data, Standard, StandardObjects(data, override));
    var c := ObjectArgsList(data, Custom, CustomObjects(data, override));
    var e := EntityArgsList(data);
    assert HasArg(Desired(data, override), key) <==> HasArg(a, key) || HasArg(b, key) || HasArg(c, key) || HasArg(e, key) by {
      assert forall x :: x in Desired(data, override) <==> x in a || x in b || x in c || x in e;
    }
  }

  // ---- The table of syncs

  predicate HasKey(rows: map<Id, SyncRow>, c: ConnectionId, key: SyncKey) {
    exists s :: s in rows && rows[s].connection == c && rows[s].key == key
  }

  ghost predicate UniqueKeys(rows: map<Id, SyncRow>) {
    forall s, t :: s in rows && t in rows && rows[s].connection == rows[t].connection && rows[s].key == rows[t].key ==> s == t
  }

  function NewRow(c: ConnectionId, config: Id, a: SyncArgs): SyncRow {
    SyncRow(a.key, c, config, a.paused, a.strategy, Created, false)
  }

  /** `createMany` with `skipDuplicates`: arguments whose key the connection
      already has are skipped, the others get the next ids. */
  function CreateMany(rows: map<Id, SyncRow>, c: ConnectionId, config: Id, args: seq<SyncArgs>, next: Id): (r: map<Id, SyncRow>)
    requires forall s :: s in rows ==> s < next
    ensures forall s :: s in rows ==> s in r && r[s] == rows[s]
    ensures forall s :: s in r && s !in rows ==>
              next <= s < next + |args| && HasArg(args, r[s].key)
              && r[s].connection == c && r[s].config == config && r[s].state == Created
    decreases |args|
  {
    if args == [] then rows
    else
      var a := args[0];
      var rows1 := CreateOne(rows, c, config, a, next);
      assert forall k :: HasArg(args[1..], k) ==> HasArg(args, k);
      assert HasArg(args, a.key);
      CreateMany(rows1, c, config, args[1..], next + 1)
  }

  function CreateOne(rows: map<Id, SyncRow>, c: ConnectionId, config: Id, a: SyncArgs, next: Id): map<Id, SyncRow> {
    if HasKey(rows, c, a.key) then rows else rows[next := NewRow(c, config, a)]
  }

  lemma CreateOneKeys(rows: map<Id, SyncRow>, c: ConnectionId, config: Id, a: SyncArgs, next: Id)
    requires forall s :: s in rows ==> s < next
    ensures var r := CreateOne(rows, c, config, a, next);
            HasKey(r, c, a.key) && (UniqueKeys(rows) ==> UniqueKeys(r))
  {
    var r := CreateOne(rows, c, config, a, next);
    if !HasKey(rows, c, a.key) {
      assert next in r && r[next].key == a.key;
    }
  }

  lemma HasKeyGrows(rows: map<Id, SyncRow>, r: map<Id, SyncRow>, c: ConnectionId, k: SyncKey)
    requires forall s :: s in rows ==> s in r && r[s] == rows[s]
    requires HasKey(rows, c, k)
    ensures HasKey(r, c, k)
  {
    var s :| s in rows && rows[s].connection == c && rows[s].key == k;
    assert s in r && r[s] == rows[s];
  }

  /** Afterwards the connection has every key asked for, and only keys it
      lacked got new rows, so the unique index still holds. */
  lemma {:induction false} CreateManyKeys(rows: map<Id, SyncRow>, c: ConnectionId, config: Id, args: seq<SyncArgs>, next: Id)
    requires forall s :: s in rows ==> s < next
    ensures var r := CreateMany(rows, c, config, args, next);
            && (forall k :: HasArg(args, k) ==> HasKey(r, c, k))
            && (forall s :: s in r && s !in rows ==> !HasKey(rows, c, r[s].key))
            && (UniqueKeys(rows) ==> UniqueKeys(r))
    decreases |args|
  {
    if args != [] {
      var a := args[0];
      var rows1 := CreateOne(rows, c, config, a, next);
      var r := CreateMany(rows1, c, config, args[1..], next + 1);
      CreateManyKeys(rows1, c, config, args[1..], next + 1);
      CreateOneKeys(rows, c, config, a, next);
      HasKeyGrows(rows1, r, c, a.key);
      forall k | HasArg(args, k) ensures HasKey(r, c, k) {
        if k != a.key {
          var b :| b in args && b.key == k;
          assert b in args[1..];
        }
      }
      forall s | s in r && s !in rows ensures !HasKey(rows, c, r[s].key) {
        if s in rows1 {
          assert !HasKey(rows, c, a.key) && rows1[s] == NewRow(c, config, a);
        } else if HasKey(rows, c, r[s].key) {
          HasKeyGrows(rows, rows1, c, r[s].key);
        }
      }
    }
  }

  /** The filter of `deleteMany`: an entity argument carries no object type and
      no object, so it stands for every entity sync of the connection. */
  predicate KeptBy(args: seq<SyncArgs>, key: SyncKey) {
    exists a :: a in args && (a.key == key || (a.key.EntityKey? && key.EntityKey?))
  }

  function DeleteUnwanted(rows: map<Id, SyncRow>, c: ConnectionId, args: seq<SyncArgs>): (r: map<Id, SyncRow>)
    ensures forall s :: s in r <==> s in rows && (rows[s].connection == c ==> KeptBy(args, rows[s].key))
    ensures forall s :: s in r ==> r[s] == rows[s]
  {
    map s | s in rows && (rows[s].connection == c ==> KeptBy(args, rows[s].key)) :: rows[s]
  }

  function RowsOf(rows: map<Id, SyncRow>, c: ConnectionId): set<Id> {
    set s | s in rows && rows[s].connection == c
  }

  predicate AddedFor(ids: set<Id>, next: Id, e: Id) {
    next <= e && e - next in ids
  }

  /** One change for every listed sync, under the new id next + s. */
  function AddChanges(changes: map<Id, Id>, ids: set<Id>, next: Id): (r: map<Id, Id>)
    requires forall s :: s in ids ==> s < next
    requires forall e :: e in changes ==> e < next
    ensures forall e :: e in r <==> e in changes || AddedFor(ids, next, e)
    ensures forall e :: e in r ==> r[e] == if e in changes then changes[e] else e - next
    ensures forall e :: e in r ==> e < next + next
  {
    changes + map e: Id | next <= e < next + next && AddedFor(ids, next, e) :: e - next
  }

  // ---- One pass over a connection

  function Pass(rows: map<Id, SyncRow>, c: ConnectionId, config: Id, args: seq<SyncArgs>, next: Id): map<Id, SyncRow>
    requires forall s :: s in rows ==> s < next
  {
    DeleteUnwanted(CreateMany(rows, c, config, args, next), c, args)
  }

  predicate WantsEntities(args: seq<SyncArgs>) {
    exists a :: a in args && a.key.EntityKey?
  }

  /** After a pass the connection's object keys are exactly the desired ones;
      every desired entity is there, and entity keys are exact as well precisely
      when the pass wanted no entity or found no undesired entity before. */
  lemma PassIsExact(rows: map<Id, SyncRow>, c: ConnectionId, config: Id, args: seq<SyncArgs>, next: Id)
    requires forall s :: s in rows ==> s < next
    ensures var r := Pass(rows, c, config, args, next);
            && (forall k: SyncKey :: k.ObjectKey? ==> (HasKey(r, c, k) <==> HasArg(args, k)))
            && (forall k: SyncKey :: HasArg(args, k) ==> HasKey(r, c, k))
            && ((forall k: SyncKey :: HasKey(r, c, k) <==> HasArg(args, k)) <==>
                (!WantsEntities(args) || forall k: SyncKey :: k.EntityKey? && HasKey(rows, c, k) ==> HasArg(args, k)))
  {
    var m := CreateMany(rows, c, config, args, next);
    var r := Pass(rows, c, config, args, next);
    CreateManyKeys(rows, c, config, args, next);
    forall k: SyncKey
      ensures HasArg(args, k) ==> HasKey(r, c, k)
      ensures HasKey(r, c, k) ==> HasArg(args, k) || (k.EntityKey? && WantsEntities(args) && HasKey(rows, c, k))
      ensures k.EntityKey? && WantsEntities(args) && HasKey(rows, c, k) ==> HasKey(r, c, k)
    {
      if HasArg(args, k) {
        assert HasKey(m, c, k);
        var s :| s in m && m[s].connection == c && m[s].key == k;
        assert KeptBy(args, k);
        assert s in r && r[s] == m[s];
      }
      if HasKey(r, c, k) {
        var s :| s in r && r[s].connection == c && r[s].key == k;
        assert s in m && KeptBy(args, m[s].key);
        if !HasArg(args, k) {
          assert s in rows && rows[s] == m[s];
        }
      }
      if k.EntityKey? && WantsEntities(args) && HasKey(rows, c, k) {
        var s :| s in rows && rows[s].connection == c && rows[s].key == k;
        assert s in m && m[s] == rows[s] && KeptBy(args, k);
        assert s in r && r[s] == rows[s];
      }
    }
  }

  /** With an entity still desired, the sync of an entity that is no longer
      configured survives the pass. */
  lemma StaleEntitySyncSurvives()
    ensures exists rows: map<Id, SyncRow>, args: seq<SyncArgs> ::
              && (forall s :: s in rows ==> s < 1)
              && HasKey(Pass(rows, [], 0, args, 1), [], EntityKey("old"))
              && !HasArg(args, EntityKey("old"))
  {
    var strategy := Strategy(FullThenIncremental, None);
    var rows: map<Id, SyncRow> := map[0 := SyncRow(EntityKey("old"), [], 0, false, strategy, Created, false)];
    var args := [SyncArgs(EntityKey("new"), false, strategy)];
    var r := Pass(rows, [], 0, args, 1);
    assert args[0] in args && "old" != "new" by { assert "old"[0] != "new"[0]; }
    assert KeptBy(args, EntityKey("old"));
    assert 0 in r && r[0] == rows[0];
    assert !HasArg(args, EntityKey("old"));
  }

  lemma NothingToCreate(rows: map<Id, SyncRow>, c: ConnectionId, config: Id, args: seq<SyncArgs>, next: Id)
    requires (forall s :: s in rows ==> s < next) && forall k :: HasArg(args, k) ==> HasKey(rows, c, k)
    ensures CreateMany(rows, c, config, args, next) == rows
  {
    CreateManyKeys(rows, c, config, args, next);
    hide CreateMany, HasKey, HasArg, UniqueKeys;
    var m := CreateMany(rows, c, config, args, next);
    assert forall s :: s in m ==> s in rows;
  }

  lemma NothingToDelete(rows: map<Id, SyncRow>, c: ConnectionId, args: seq<SyncArgs>)
    requires forall s :: s in rows && rows[s].connection == c ==> KeptBy(args, rows[s].key)
    ensures DeleteUnwanted(rows, c, args) == rows
  {
    hide KeptBy;
  }

  /** A second pass changes nothing. */
  lemma PassIsIdempotent(rows: map<Id, SyncRow>, c: ConnectionId, config: Id, args: seq<SyncArgs>, next: Id, next': Id)
    requires forall s :: s in rows ==> s < next
    requires next' >= next + |args|
    ensures forall s :: s in Pass(rows, c, config, args, next) ==> s < next'
    ensures Pass(Pass(rows, c, config, args, next), c, config, args, next') == Pass(rows, c, config, args, next)
  {
    PassIsExact(rows, c, config, args, next);
    hide CreateMany, HasKey, HasArg, KeptBy;
    var r := Pass(rows, c, config, args, next);
    NothingToCreate(r, c, config, args, next');
    NothingToDelete(r, c, args);
  }

  /** Surviving rows are untouched (same id, paused flag, state and strategy),
      other connections' rows all survive, and new rows are in phase created. */
  lemma PassKeepsSurvivors(rows: map<Id, SyncRow>, c: ConnectionId, config: Id, args: seq<SyncArgs>, next: Id)
    requires forall s :: s in rows ==> s < next
    ensures var r := Pass(rows, c, config, args, next);
            && (forall s :: s in rows && s in r ==> r[s] == rows[s])
            && (forall s :: s in rows && rows[s].connection != c ==> s in r)
            && (forall s :: s in rows && HasArg(args, rows[s].key) ==> s in r)
            && (forall s :: s in r && s !in rows ==> r[s].connection == c && r[s].state == Created && HasArg(args, r[s].key))
            && (UniqueKeys(rows) ==> UniqueKeys(r))
  {
    var m := CreateMany(rows, c, config, args, next);
    CreateManyKeys(rows, c, config, args, next);
    forall s | s in rows && HasArg(args, rows[s].key)
      ensures KeptBy(args, rows[s].key)
    {
    }
  }

  ghost predicate FromFirst(args: seq<SyncArgs>, c: ConnectionId, config: Id, row: SyncRow) {
    exists i :: 0 <= i < |args| && row == NewRow(c, config, args[i]) && forall j :: 0 <= j < i ==> args[j].key != row.key
  }

  lemma FromFirstOfRest(args: seq<SyncArgs>, c: ConnectionId, config: Id, row: SyncRow)
    requires args != [] && args[0].key != row.key && FromFirst(args[1..], c, config, row)
    ensures FromFirst(args, c, config, row)
  {
    var i :| 0 <= i < |args[1..]| && row == NewRow(c, config, args[1..][i]) && forall j :: 0 <= j < i ==> args[1..][j].key != row.key;
    assert row == NewRow(c, config, args[i + 1]);
    forall j | 0 <= j < i + 1 ensures args[j].key != row.key {
      assert j > 0 ==> args[j] == args[1..][j - 1];
    }
  }

  lemma LaterKeysDiffer(rows: map<Id, SyncRow>, c: ConnectionId, config: Id, args: seq<SyncArgs>, next: Id, s: Id)
    requires (forall t :: t in rows ==> t < next) && args != []
    requires var rows1 := CreateOne(rows, c, config, args[0], next);
             s in CreateMany(rows1, c, config, args[1..], next + 1) && s !in rows1
    ensures CreateMany(CreateOne(rows, c, config, args[0], next), c, config, args[1..], next + 1)[s].key != args[0].key
  {
    CreateOneKeys(rows, c, config, args[0], next);
    CreateManyKeys(CreateOne(rows, c, config, args[0], next), c, config, args[1..], next + 1);
    hide CreateMany, HasKey, HasArg;
  }

  /** Each new row is made from the first argument with its key. */
  lemma {:induction false} CreateManyRows(rows: map<Id, SyncRow>, c: ConnectionId, config: Id, args: seq<SyncArgs>, next: Id, s: Id)
    requires (forall t :: t in rows ==> t < next) && s in CreateMany(rows, c, config, args, next) && s !in rows
    ensures FromFirst(args, c, config, CreateMany(rows, c, config, args, next)[s])
    decreases |args|
  {
    hide HasKey, HasArg;
    var rows1, r := CreateOne(rows, c, config, args[0], next), CreateMany(rows, c, config, args, next);
    assert r == CreateMany(rows1, c, config, args[1..], next + 1);
    if s in rows1 {
      hide CreateMany;
      assert r[s] == NewRow(c, config, args[0]);
    } else {
      hide CreateMany, CreateOne, FromFirst;
      CreateManyRows(rows1, c, config, args[1..], next + 1, s);
      LaterKeysDiffer(rows, c, config, args, next, s);
      FromFirstOfRest(args, c, config, r[s]);
    }
  }

  function OrDefault(strategy: Option<StrategyType>): StrategyType {
    if strategy.Some? then strategy.value else FullThenIncremental
  }

  /** Some object of the configured list has the name, and the strategy is its own. */
  ghost predicate StrategyFrom(objects: seq<ObjectConfig>, d: StrategyConfig, name: string, strategy: Strategy) {
    exists o: ObjectConfig :: o in objects && o.name == name && OwnStrategy(o.syncStrategyOverride, d, strategy)
  }

  /** Field by field: what the override leaves open comes from the default. */
  predicate OwnStrategy(override: Option<StrategyConfig>, d: StrategyConfig, strategy: Strategy) {
    && (override.Some? && override.value.strategy.Some? ==> Some(strategy.strategyType) == override.value.strategy)
    && (override.None? || override.value.strategy.None? ==> strategy.strategyType == OrDefault(d.strategy))
    && (override.Some? && override.value.fullSyncEveryNIncrementals.Some? ==>
          strategy.fullSyncEveryNIncrementals == override.value.fullSyncEveryNIncrementals)
    && (override.None? || override.value.fullSyncEveryNIncrementals.None? ==>
          strategy.fullSyncEveryNIncrementals == d.fullSyncEveryNIncrementals)
  }

  ghost predicate IsConfigured(data: ConfigData, override: Option<ConnectionSyncConfig>, key: SyncKey, strategy: Strategy) {
    match key
    case EntityKey(_) => strategy == Strategy(OrDefault(data.defaultConfig.strategy), None)
    case ObjectKey(Common, o) => StrategyFrom(data.commonObjects, data.defaultConfig, o, strategy)
    case ObjectKey(Standard, o) => StrategyFrom(StandardObjects(data, override), data.defaultConfig, o, strategy)
    case ObjectKey(Custom, o) => StrategyFrom(CustomObjects(data, override), data.defaultConfig, o, strategy)
  }

  /** New syncs start out as the config says: paused only when it turns automatic
      starts off, in phase created, with the object's own strategy over the default. */
  lemma NewSyncsAreConfigured(rows: map<Id, SyncRow>, c: ConnectionId, config: Id, data: ConfigData, override: Option<ConnectionSyncConfig>,
                              next: Id, s: Id)
    requires (forall t :: t in rows ==> t < next) && s !in rows && s in Pass(rows, c, config, Desired(data, override), next)
    ensures var row := Pass(rows, c, config, Desired(data, override), next)[s];
            && row.connection == c && row.config == config && row.state == Created && !row.performFullRefresh
            && (row.paused <==> data.defaultConfig.autoStartOnConnection == Some(false))
            && IsConfigured(data, override, row.key, row.strategy)
  {
    var args := Desired(data, override);
    CreateManyRows(rows, c, config, args, next, s);
    var i :| 0 <= i < |args| && CreateMany(rows, c, config, args, next)[s] == NewRow(c, config, args[i]);
    hide CreateMany, IsConfigured, FromFirst;
    ArgsAreConfigured(data, override, i);
  }

  lemma ArgsAreConfigured(data: ConfigData, override: Option<ConnectionSyncConfig>, i: nat)
    requires i < |Desired(data, override)|
    ensures var a := Desired(data, override)[i];
            && (a.paused <==> data.defaultConfig.autoStartOnConnection == Some(false))
            && IsConfigured(data, override, a.key, a.strategy)
  {
    var x := ObjectArgsList(data, Common, data.commonObjects);
    var y := ObjectArgsList(data, Standard, StandardObjects(data, override));
    var z := ObjectArgsList(data, Custom, CustomObjects(data, override));
    var a := Desired(data, override)[i];
    if i < |x| {
      var o := data.commonObjects[i];
      assert a == ObjectArgs(data, Common, o) && OwnStrategy(o.syncStrategyOverride, data.defaultConfig, a.strategy);
    } else if i < |x| + |y| {
      var o := StandardObjects(data, override)[i - |x|];
      assert a == ObjectArgs(data, Standard, o) && OwnStrategy(o.syncStrategyOverride, data.defaultConfig, a.strategy);
    } else if i < |x| + |y| + |z| {
      var o := CustomObjects(data, override)[i - |x| - |y|];
      assert a == ObjectArgs(data, Custom, o) && OwnStrategy(o.syncStrategyOverride, data.defaultConfig, a.strategy);
    } else {
      assert a == EntityArgs(data, data.entities[i - |x| - |y| - |z|]);
    }
  }

  /** Every row a pass deletes has a change event: the events are added for all
      rows of the connection between the insertion and the deletion. */
  lemma DeletedRowsHaveChanges(rows: map<Id, SyncRow>, c: ConnectionId, config: Id, args: seq<SyncArgs>, next: Id,
                               changes: map<Id, Id>, next': Id)
    requires forall s :: s in rows ==> s < next
    requires next' >= next + |args|
    requires forall e :: e in changes ==> e < next'
    ensures var m := CreateMany(rows, c, config, args, next);
            && (forall s :: s in m ==> s < next')
            && var changes' := AddChanges(changes, RowsOf(m, c), next');
            forall s :: s in rows && s !in Pass(rows, c, config, args, next) ==> next' + s in changes' && changes'[next' + s] == s
  {
    var m := CreateMany(rows, c, config, args, next);
    var changes' := AddChanges(changes, RowsOf(m, c), next');
    forall s | s in rows && s !in Pass(rows, c, config, args, next)
      ensures next' + s in changes' && changes'[next' + s] == s
    {
      assert s in RowsOf(m, c);
      assert AddedFor(RowsOf(m, c), next', next' + s);
    }
  }
}
