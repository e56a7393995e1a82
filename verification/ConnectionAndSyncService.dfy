/** The API's transactions on connections and syncs, as writers of the outbox. */
module ConnectionAndSyncService {
  import opened SyncTypes
  import opened Reconcile
  import opened Outbox
  import opened OutboxInvariant
  import opened OutboxWriters
  import opened OutboxSafeWrites
  import opened OutboxTheorems

  // ---- The syncs of a new connection

  ghost predicate AllBelow(rows: map<Id, SyncRow>, next: Id) {
    forall s :: s in rows ==> s < next
  }

  /** The first i syncs are inserted: what is left to do still gives the result of
      inserting all of them, and their keys are distinct. */
  ghost predicate Inserted(rows0: map<Id, SyncRow>, rows: map<Id, SyncRow>, c: ConnectionId, config: Id, args: seq<SyncArgs>, i: nat, next: Id)
  {
    && i <= |args| && AllBelow(rows0, next) && AllBelow(rows, next + i)
    && CreateMany(rows0, c, config, args, next) == CreateMany(rows, c, config, args[i..], next + i)
    && (forall k :: HasKey(rows, c, k) <==> HasArg(args[..i], k))
    && DistinctKeys(args[..i])
  }

  lemma InsertedNone(rows: map<Id, SyncRow>, c: ConnectionId, config: Id, args: seq<SyncArgs>, next: Id)
    requires AllBelow(rows, next) && forall s :: s in rows ==> rows[s].connection != c
    ensures Inserted(rows, rows, c, config, args, 0, next)
  {
    assert args[0..] == args;
  }

  lemma InsertedAll(rows0: map<Id, SyncRow>, rows: map<Id, SyncRow>, c: ConnectionId, config: Id, args: seq<SyncArgs>, next: Id)
    requires Inserted(rows0, rows, c, config, args, |args|, next)
    ensures rows == CreateMany(rows0, c, config, args, next) && DistinctKeys(args)
  {
    assert args[..|args|] == args && args[|args|..] == [];
  }

  lemma KeysSoFar(args: seq<SyncArgs>, i: nat, k: SyncKey)
    requires i < |args|
    ensures HasArg(args[..i + 1], k) <==> HasArg(args[..i], k) || k == args[i].key
  {
    assert args[..i + 1] == args[..i] + [args[i]];
    if HasArg(args[..i + 1], k) {
      var a :| a in args[..i + 1] && a.key == k;
    }
    if k == args[i].key {
      assert args[i] in args[..i + 1];
    }
    if HasArg(args[..i], k) {
      var a :| a in args[..i] && a.key == k;
      assert a in args[..i + 1];
    }
  }

  lemma DistinctSoFar(args: seq<SyncArgs>, i: nat)
    requires i < |args| && DistinctKeys(args[..i]) && !HasArg(args[..i], args[i].key)
    ensures DistinctKeys(args[..i + 1])
  {
    forall j | 0 <= j < i ensures args[j].key != args[i].key {
      assert args[..i][j] in args[..i];
    }
    assert forall j :: 0 <= j < i ==> args[..i + 1][j] == args[..i][j];
  }

  lemma DuplicateKey(args: seq<SyncArgs>, i: nat)
    requires i < |args| && HasArg(args[..i], args[i].key)
    ensures !DistinctKeys(args)
  {
    var a :| a in args[..i] && a.key == args[i].key;
    var j :| 0 <= j < i && args[j] == a;
  }

  lemma InsertedKey(rows: map<Id, SyncRow>, c: ConnectionId, id: Id, row: SyncRow, k: SyncKey)
    requires id !in rows && row.connection == c
    ensures HasKey(rows[id := row], c, k) <==> HasKey(rows, c, k) || k == row.key
  {
    var r := rows[id := row];
    if HasKey(rows, c, k) {
      HasKeyGrows(rows, r, c, k);
    }
    assert id in r;
  }

  lemma InsertedTwice(rows0: map<Id, SyncRow>, rows: map<Id, SyncRow>, c: ConnectionId, config: Id, args: seq<SyncArgs>, i: nat, next: Id)
    requires Inserted(rows0, rows, c, config, args, i, next) && i < |args| && HasKey(rows, c, args[i].key)
    ensures !DistinctKeys(args)
  {
    hide CreateMany, HasKey, DistinctKeys, HasArg;
    DuplicateKey(args, i);
  }

  lemma InsertFirst(rows: map<Id, SyncRow>, c: ConnectionId, config: Id, args: seq<SyncArgs>, i: nat, next: Id)
    requires AllBelow(rows, next) && i < |args| && !HasKey(rows, c, args[i].key)
    ensures AllBelow(rows[next := NewRow(c, config, args[i])], next + 1)
    ensures CreateMany(rows, c, config, args[i..], next)
         == CreateMany(rows[next := NewRow(c, config, args[i])], c, config, args[i + 1..], next + 1)
  {
    assert args[i..][1..] == args[i + 1..];
  }

  lemma InsertedNext(rows0: map<Id, SyncRow>, rows: map<Id, SyncRow>, c: ConnectionId, config: Id, args: seq<SyncArgs>, i: nat, next: Id)
    requires Inserted(rows0, rows, c, config, args, i, next) && i < |args| && !HasKey(rows, c, args[i].key)
    ensures Inserted(rows0, rows[next + i := NewRow(c, config, args[i])], c, config, args, i + 1, next)
  {
    hide CreateMany, HasKey, HasArg, DistinctKeys;
    var rows1 := rows[next + i := NewRow(c, config, args[i])];
    assert AllBelow(rows, next + i);
    assert next + i !in rows;
    InsertFirst(rows, c, config, args, i, next + i);
    DistinctSoFar(args, i);
    hide AllBelow;
    forall k ensures HasKey(rows1, c, k) <==> HasArg(args[..i + 1], k) {
      KeysSoFar(args, i, k);
      InsertedKey(rows, c, next + i, NewRow(c, config, args[i]), k);
    }
  }

  lemma CreatedBelow(st: Store, c: ConnectionId, config: Id, args: seq<SyncArgs>)
    requires Ids(st)
    ensures forall s :: s in RowsOf(CreateMany(st.rows, c, config, args, st.next), c) ==> s < st.next + |args|
    ensures forall e :: e in st.syncChanges ==> e < st.next + |args|
  {
    hide CreateMany;
  }

  lemma CreatedWithSyncs(st: Store, c: ConnectionId, customer: Id, provider: Id, config: Id, paused: bool)
    requires Ids(st) && Enabled(st, CreateConnection(c, customer, provider, Some(config), paused))
    ensures var args := ConnectionArgs(st.configs[config].data, paused);
            var rows := CreateMany(st.rows, c, config, args, st.next);
            var next := st.next + |args|;
            && (forall s :: s in RowsOf(rows, c) ==> s < next) && (forall e :: e in st.syncChanges ==> e < next)
            && Apply(st, CreateConnection(c, customer, provider, Some(config), paused))
            == st.(connections := st.connections[c := Connection(customer, provider, None)], seen := st.seen + {c},
                   rows := rows, syncChanges := AddChanges(st.syncChanges, RowsOf(rows, c), next), next := next + next)
  {
    hide CreateMany, AddChanges, DistinctKeys, ConnectionArgs, Desired, RowsOf;
    CreatedBelow(st, c, config, ConnectionArgs(st.configs[config].data, paused));
  }

  /** Exactly one event names the sync. */
  ghost predicate OneEvent(changes: map<Id, Id>, s: Id) {
    exists e :: e in changes && changes[e] == s && forall d :: d in changes && changes[d] == s ==> d == e
  }

  /** The syncs of a new connection: one for each key the provider's config asks for, all
      with the given paused flag, in phase created, with the default's strategy and no
      number of incrementals, and with one event each; no other sync changes. */
  ghost predicate SyncsCreated(st: Store, st': Store, c: ConnectionId, g: Id, paused: bool)
    requires g in st.configs
  {
    var data := st.configs[g].data;
    && (forall s :: s in st.rows ==> s in st'.rows && st'.rows[s] == st.rows[s])
    && (forall s :: s in st'.rows && s !in st.rows ==>
          && st'.rows[s] == SyncRow(st'.rows[s].key, c, g, paused, Strategy(OrDefault(data.defaultConfig.strategy), None), Created, false)
          && OneEvent(st'.syncChanges, s))
    && (forall k :: HasKey(st'.rows, c, k) <==> IsDesired(data, None, k))
    && (UniqueKeys(st.rows) ==> UniqueKeys(st'.rows))
  }

  lemma CreatedRow(data: ConfigData, paused: bool, c: ConnectionId, g: Id, row: SyncRow)
    requires FromFirst(ConnectionArgs(data, paused), c, g, row)
    ensures row == SyncRow(row.key, c, g, paused, Strategy(OrDefault(data.defaultConfig.strategy), None), Created, false)
  {
    hide Desired;
  }

  lemma AddedOnce(changes: map<Id, Id>, ids: set<Id>, next: Id, s: Id)
    requires (forall t :: t in ids ==> t < next) && (forall e :: e in changes ==> e < next && changes[e] != s) && s in ids
    ensures OneEvent(AddChanges(changes, ids, next), s)
  {
    hide AddChanges;
    var r := AddChanges(changes, ids, next);
    assert AddedFor(ids, next, next + s);
    assert next + s in r && r[next + s] == s;
    forall d | d in r && r[d] == s ensures d == next + s {
      if d !in changes {
        assert AddedFor(ids, next, d);
      }
    }
  }

  /** The rows inserted for a connection without any. */
  lemma InsertedRows(rows: map<Id, SyncRow>, c: ConnectionId, g: Id, data: ConfigData, paused: bool, next: Id)
    requires AllBelow(rows, next) && forall s :: s in rows ==> rows[s].connection != c
    ensures var r := CreateMany(rows, c, g, ConnectionArgs(data, paused), next);
            && (forall s :: s in r && s !in rows ==>
                  r[s] == SyncRow(r[s].key, c, g, paused, Strategy(OrDefault(data.defaultConfig.strategy), None), Created, false))
            && (forall k :: HasKey(r, c, k) <==> IsDesired(data, None, k))
            && (UniqueKeys(rows) ==> UniqueKeys(r))
  {
    var args := ConnectionArgs(data, paused);
    var r := CreateMany(rows, c, g, args, next);
    CreateManyKeys(rows, c, g, args, next);
    hide CreateMany, ConnectionArgs, Desired, HasKey, HasArg, IsDesired, FromFirst, UniqueKeys;
    forall s | s in r && s !in rows
      ensures r[s] == SyncRow(r[s].key, c, g, paused, Strategy(OrDefault(data.defaultConfig.strategy), None), Created, false)
    {
      CreateManyRows(rows, c, g, args, next, s);
      CreatedRow(data, paused, c, g, r[s]);
    }
    forall k ensures HasKey(r, c, k) <==> IsDesired(data, None, k) {
      DesiredKeys(data, None, k);
      CreatedKey(rows, r, c, args, k);
    }
  }

  lemma InsertedEvents(changes: map<Id, Id>, rows: map<Id, SyncRow>, rows': map<Id, SyncRow>, c: ConnectionId, next: Id, next': Id)
    requires forall e :: e in changes ==> changes[e] < next
    requires forall s :: s in rows' && s !in rows ==> next <= s && rows'[s].connection == c
    requires (forall s :: s in RowsOf(rows', c) ==> s < next') && (forall e :: e in changes ==> e < next')
    ensures forall s :: s in rows' && s !in rows ==> OneEvent(AddChanges(changes, RowsOf(rows', c), next'), s)
  {
    hide AddChanges, OneEvent;
    forall s | s in rows' && s !in rows ensures OneEvent(AddChanges(changes, RowsOf(rows', c), next'), s) {
      AddedOnce(changes, RowsOf(rows', c), next', s);
    }
  }

  lemma ConfigIsThere(st: Store, c: ConnectionId, customer: Id, provider: Id, g: Id, paused: bool)
    requires Enabled(st, CreateConnection(c, customer, provider, Some(g), paused))
    ensures g in st.configs
  {
    hide Connected, DistinctKeys, Desired;
  }

  lemma EventsBelow(st: Store)
    requires Ids(st)
    ensures AllBelow(st.rows, st.next) && forall e :: e in st.syncChanges ==> st.syncChanges[e] < st.next
  {
  }

  /** Seen from the tables: rows and events are all that changes among the syncs. */
  lemma CreatedFromParts(st: Store, st': Store, c: ConnectionId, g: Id, paused: bool, next: Id)
    requires g in st.configs && AllBelow(st.rows, st.next) && (forall s :: s in st.rows ==> st.rows[s].connection != c)
    requires st'.rows == CreateMany(st.rows, c, g, ConnectionArgs(st.configs[g].data, paused), st.next)
    requires (forall s :: s in RowsOf(st'.rows, c) ==> s < next) && (forall e :: e in st.syncChanges ==> e < next && st.syncChanges[e] < st.next)
    requires st'.syncChanges == AddChanges(st.syncChanges, RowsOf(st'.rows, c), next)
    ensures SyncsCreated(st, st', c, g, paused)
  {
    hide ConnectionArgs, Desired, CreateMany, HasKey, HasArg, OneEvent, IsDesired, UniqueKeys, AllBelow, AddChanges, RowsOf;
    InsertedRows(st.rows, c, g, st.configs[g].data, paused, st.next);
    assert forall s :: s in st'.rows && s !in st.rows ==> OneEvent(st'.syncChanges, s) by {
      InsertedEvents(st.syncChanges, st.rows, st'.rows, c, st.next, next);
    }
  }

  lemma CreationCreates(st: Store, c: ConnectionId, customer: Id, provider: Id, g: Id, paused: bool)
    requires Ids(st) && Enabled(st, CreateConnection(c, customer, provider, Some(g), paused))
    requires forall s :: s in st.rows ==> st.rows[s].connection != c
    ensures SyncsCreated(st, Apply(st, CreateConnection(c, customer, provider, Some(g), paused)), c, g, paused)
  {
    hide *;
    ConfigIsThere(st, c, customer, provider, g, paused);
    EventsBelow(st);
    CreatedWithSyncs(st, c, customer, provider, g, paused);
    CreatedFromParts(st, Apply(st, CreateConnection(c, customer, provider, Some(g), paused)), c, g, paused,
                     st.next + |ConnectionArgs(st.configs[g].data, paused)|);
  }

  lemma CreatedKey(rows: map<Id, SyncRow>, rows': map<Id, SyncRow>, c: ConnectionId, args: seq<SyncArgs>, k: SyncKey)
    requires forall s :: s in rows ==> rows[s].connection != c && s in rows' && rows'[s] == rows[s]
    requires forall s :: s in rows' && s !in rows ==> HasArg(args, rows'[s].key)
    requires HasArg(args, k) ==> HasKey(rows', c, k)
    ensures HasKey(rows', c, k) <==> HasArg(args, k)
  {
    hide HasArg;
  }

  class ConnectionAndSyncService {
    var store: Store

    constructor (st: Store)
      ensures store == st
    {
      store := st;
    }

    method FindByProviderId(provider: Id) returns (config: Option<Id>)
      ensures ConfigFor(store.configs, provider, config)
    {
      config := None;
      if g :| g in store.configs && store.configs[g].provider == provider {
        config := Some(g);
      }
    }

    /** Each sync gets a fresh id. The insertion fails, and with it the whole
        transaction, when two syncs have the same key. */
    method InsertSyncs(c: ConnectionId, config: Id, args: seq<SyncArgs>) returns (ok: bool, rows: map<Id, SyncRow>, syncIds: set<Id>)
      requires AllBelow(store.rows, store.next) && forall s :: s in store.rows ==> store.rows[s].connection != c
      ensures ok <==> DistinctKeys(args)
      ensures ok ==> rows == CreateMany(store.rows, c, config, args, store.next) && syncIds == RowsOf(rows, c)
    {
      hide Inserted, HasKey, HasArg, DistinctKeys, CreateMany;
      InsertedNone(store.rows, c, config, args, store.next);
      rows, syncIds := store.rows, {};
      for i := 0 to |args|
        invariant Inserted(store.rows, rows, c, config, args, i, store.next)
        invariant syncIds == RowsOf(rows, c)
      {
        if HasKey(rows, c, args[i].key) {
          InsertedTwice(store.rows, rows, c, config, args, i, store.next);
          return false, rows, syncIds;
        }
        InsertedNext(store.rows, rows, c, config, args, i, store.next);
        rows := rows[store.next + i := NewRow(c, config, args[i])];
        syncIds := syncIds + {store.next + i};
      }
      InsertedAll(store.rows, rows, c, config, args, store.next);
      ok := true;
    }

    method CreateWithSyncs(c: ConnectionId, customer: Id, provider: Id, config: Id, paused: bool) returns (ok: bool)
      requires Ids(store) && c !in store.seen && forall s :: s in store.rows ==> store.rows[s].connection != c
      requires ConfigFor(store.configs, provider, Some(config)) && !Connected(store.connections, customer, provider)
      modifies this
      ensures ok <==> DistinctKeys(Desired(old(store).configs[config].data, None))
      ensures !ok ==> store == old(store)
      ensures ok ==> Enabled(old(store), CreateConnection(c, customer, provider, Some(config), paused))
                     && store == Apply(old(store), CreateConnection(c, customer, provider, Some(config), paused))
                     && store.connections == old(store).connections[c := Connection(customer, provider, None)]
                     && SyncsCreated(old(store), store, c, config, paused)
    {
      hide SyncsCreated;
      hide CreateMany, AddChanges, DistinctKeys, ConnectionArgs, Desired, Apply, RowsOf;
      var args := ConnectionArgs(store.configs[config].data, paused);
      SameKeys(store.configs[config].data, paused);
      var rows, syncIds;
      ok, rows, syncIds := InsertSyncs(c, config, args);
      if ok {
        CreatedWithSyncs(store, c, customer, provider, config, paused);
        CreationCreates(store, c, customer, provider, config, paused);
        hide Ids, Enabled;
        var next := store.next + |args|;
        store := store.(connections := store.connections[c := Connection(customer, provider, None)], seen := store.seen + {c},
                        rows := rows, syncChanges := AddChanges(store.syncChanges, syncIds, next), next := next + next);
      }
    }

    /** A new connection, its syncs and a change event for each, in one transaction. */
    method Create(c: ConnectionId, customer: Id, provider: Id, autoStartOnConnection: Option<bool>) returns (config: Option<Id>, paused: bool, ok: bool)
      requires Ids(store) && c !in store.seen && forall s :: s in store.rows ==> store.rows[s].connection != c
      modifies this
      ensures ConfigFor(old(store).configs, provider, config)
      ensures autoStartOnConnection.Some? && config.Some? ==> paused == !autoStartOnConnection.value
      ensures autoStartOnConnection.None? && config.Some? ==> paused == !AutoStart(old(store).configs[config.value].data)
      ensures ok <==> Enabled(old(store), CreateConnection(c, customer, provider, config, paused))
      ensures ok ==> store == Apply(old(store), CreateConnection(c, customer, provider, config, paused))
      ensures ok ==> store.connections == old(store).connections[c := Connection(customer, provider, None)]
      ensures ok && config.Some? ==> SyncsCreated(old(store), store, c, config.value, paused)
      ensures ok && config.None? ==> store.rows == old(store).rows
      ensures !ok ==> store == old(store)
    {
      hide SyncsCreated, DistinctKeys, Desired, AddSyncChanges, CreateSyncs, ConnectionArgs;
      paused := false;
      config := FindByProviderId(provider);
      if config.Some? {
        var data := store.configs[config.value].data;
        paused := if autoStartOnConnection.Some? then !autoStartOnConnection.value else !AutoStart(data);
      }
      ok := !Connected(store.connections, customer, provider);
      if !ok {
        return;
      }
      if config.Some? {
        hide Apply, Ids;
        ok := CreateWithSyncs(c, customer, provider, config.value, paused);
      } else {
        store := store.(connections := store.connections[c := Connection(customer, provider, None)], seen := store.seen + {c});
      }
    }

    /** Creates or updates the connection, and nothing else. */
    method Upsert(c: ConnectionId, customer: Id, provider: Id)
      requires Ids(store) && c !in store.seen
      modifies this
      ensures store == Apply(old(store), UpsertConnection(c, customer, provider))
      ensures Connected(old(store).connections, customer, provider) ==> store == old(store)
      ensures !Connected(old(store).connections, customer, provider) ==>
        store == old(store).(connections := old(store).connections[c := Connection(customer, provider, None)], seen := old(store).seen + {c})
    {
      hide Ids;
      if !Connected(store.connections, customer, provider) {
        store := store.(connections := store.connections[c := Connection(customer, provider, None)], seen := store.seen + {c});
      }
    }

    /** The OAuth callback: create the connection, and when the transaction fails on a
        unique index, whichever that is, upsert it. */
    method OAuthCallback(c: ConnectionId, d: ConnectionId, customer: Id, provider: Id, autoStartOnConnection: Option<bool>)
      returns (config: Option<Id>, paused: bool)
      requires Ids(store) && c !in store.seen && d !in store.seen && forall s :: s in store.rows ==> store.rows[s].connection != c
      modifies this
      ensures ConfigFor(old(store).configs, provider, config)
      ensures config.Some? ==>
        paused == if autoStartOnConnection.Some? then !autoStartOnConnection.value else !AutoStart(old(store).configs[config.value].data)
      ensures store == AfterCallback(old(store), c, d, customer, provider, config, paused)
    {
      hide Ids, Enabled, Apply;
      var ok;
      config, paused, ok := Create(c, customer, provider, autoStartOnConnection);
      if !ok {
        Upsert(d, customer, provider);
      }
    }

    /** The caller holds a copy of the sync, read earlier, and only a flag that differs
        from the copy's is written. So the sync ends up with the flag asked for exactly
        when the copy's flag differs from it or the sync has it already; a stale copy can
        swallow the request. */
    method ChangeSyncPausedState(s: Id, copyPaused: bool, paused: bool) returns (ok: bool)
      requires Ids(store)
      modifies this
      ensures ok <==> copyPaused == paused || s in old(store).rows
      ensures store == if copyPaused == paused || !ok then old(store) else Apply(old(store), SetPaused(s, paused))
      ensures forall t :: t in old(store).rows && t != s ==> t in store.rows && store.rows[t] == old(store).rows[t]
      ensures s in old(store).rows && copyPaused != paused ==>
        store.rows[s] == old(store).rows[s].(paused := paused) && Pending(store.syncChanges, old(store).syncChanges.Keys, s)
      ensures s in old(store).rows ==>
        && s in store.rows && (store.rows[s].paused == paused <==> copyPaused != paused || old(store).rows[s].paused == paused)
    {
      if copyPaused == paused {
        return true;
      }
      if s !in store.rows {
        return false;
      }
      store := store.(rows := store.rows[s := store.rows[s].(paused := paused)],
                      syncChanges := store.syncChanges[store.next := s],
                      next := store.next + 1);
      assert old(store).next in store.syncChanges && store.syncChanges[old(store).next] == s;
      ok := true;
    }

    /** Reading the syncs and the transaction are taken as one step. */
    method Delete(c: ConnectionId) returns (ok: bool)
      requires Ids(store)
      modifies this
      ensures ok <==> c in old(store).connections
      ensures store == if ok then Apply(old(store), DeleteConnection(c)) else old(store)
    {
      if c !in store.connections {
        return false;
      }
      assert Enabled(store, DeleteConnection(c));
      hide AddChanges, Ids;
      var syncs := RowsOf(store.rows, c);
      store := store.(connections := store.connections - {c},
                      rows := map s | s in store.rows && store.rows[s].connection != c :: store.rows[s],
                      syncChanges := AddChanges(store.syncChanges, syncs, store.next),
                      next := store.next + store.next);
      ok := true;
    }
  }

  ghost function AfterCallback(st: Store, c: ConnectionId, d: ConnectionId, customer: Id, provider: Id, config: Option<Id>, paused: bool): Store
    requires Ids(st) && c !in st.seen && d !in st.seen
  {
    var create := CreateConnection(c, customer, provider, config, paused);
    if Enabled(st, create) then Apply(st, create) else Apply(st, UpsertConnection(d, customer, provider))
  }

  /** A new connection without syncs, under a config that wants some, is safe exactly
      when a change of the config or a full pass is still to come. */
  lemma BareConnectionIsSafeIff(st: Store, c: ConnectionId, customer: Id, provider: Id, g: Id)
    requires Tables(st) && c !in st.seen && g in st.configs && st.configs[g].provider == provider
    requires Desired(st.configs[g].data, None) != []
    ensures var st' := WithConnection(st, c, customer, provider);
            Serves(st', g, c) && (SyncsSafe(st', g, c) <==> Pending(st.configChanges, {}, g) || st.full)
  {
    NothingOfNew(st, Idle, c);
    hide Tables, Desired, Matches, Pending;
    BareConnectionMatches(WithConnection(st, c, customer, provider), c, Desired(st.configs[g].data, None));
  }

  lemma CreatedIsSafe(st: Store, c: ConnectionId, customer: Id, provider: Id, config: Option<Id>, paused: bool, g: Id)
    requires Tables(st) && Enabled(st, CreateConnection(c, customer, provider, config, paused))
    requires Serves(Apply(st, CreateConnection(c, customer, provider, config, paused)), g, c)
    ensures SyncsSafe(Apply(st, CreateConnection(c, customer, provider, config, paused)), g, c)
    ensures g in st.configs && DistinctKeys(Desired(st.configs[g].data, None))
  {
    CreateConnectionMatches(st, c, customer, provider, config, paused, g);
    hide Tables, Matches, Desired, AddSyncChanges, CreateSyncs, ConnectionArgs, Connected, Pending;
  }

  lemma RepeatedIsSome(args: seq<SyncArgs>)
    requires !DistinctKeys(args)
    ensures args != []
  {
  }

  /** The customer's connection after the callback. */
  ghost predicate IsConnectionOf(st: Store, c: ConnectionId, customer: Id, provider: Id) {
    c in st.connections && st.connections[c].customer == customer && st.connections[c].provider == provider
  }

  /** After the callback the customer's connection is safe exactly when it was there
      before and safe, or is new and the config lists no sync twice, or a change of the
      config or a full pass is still to come. */
  lemma CallbackIsSafeIff(st: Store, c: ConnectionId, d: ConnectionId, customer: Id, provider: Id, config: Option<Id>, paused: bool,
                          g: Id, e: ConnectionId)
    requires Tables(st) && Ids(st) && c !in st.seen && d !in st.seen && ConfigFor(st.configs, provider, config)
    requires var st' := AfterCallback(st, c, d, customer, provider, config, paused); IsConnectionOf(st', e, customer, provider) && Serves(st', g, e)
    ensures var st' := AfterCallback(st, c, d, customer, provider, config, paused);
            && st'.configs == st.configs
            && (Connected(st.connections, customer, provider) ==> st' == st)
            && (!Connected(st.connections, customer, provider) ==>
                  (SyncsSafe(st', g, e) <==> DistinctKeys(Desired(st.configs[g].data, None)) || Pending(st.configChanges, {}, g) || st.full))
  {
    hide Tables, Desired, DistinctKeys, Pending, SyncsSafe, Ids, AddSyncChanges, CreateSyncs, ConnectionArgs;
    var create := CreateConnection(c, customer, provider, config, paused);
    if Enabled(st, create) {
      assert Apply(st, create).connections == st.connections[c := Connection(customer, provider, None)] && Apply(st, create).configs == st.configs by { hide Tables; CreatedConnections(st, create); }
      assert e == c;
      CreatedIsSafe(st, c, customer, provider, config, paused, g);
    } else if !Connected(st.connections, customer, provider) {
      assert e == d && config == Some(g) by { OneConfig(st, provider, config, g); }
      RepeatedIsSome(Desired(st.configs[g].data, None));
      BareConnectionIsSafeIff(st, d, customer, provider, g);
    }
  }

  lemma CreatedConnections(st: Store, a: Write)
    requires Ids(st) && Enabled(st, a) && a.CreateConnection?
    ensures Apply(st, a).connections == st.connections[a.c := Connection(a.customer, a.provider, None)] && Apply(st, a).configs == st.configs
  {
    hide ConnectionArgs, Ids, Desired, Connected, CreateMany, AddChanges;
  }

  lemma OneConfig(st: Store, provider: Id, config: Option<Id>, g: Id)
    requires Tables(st) && ConfigFor(st.configs, provider, config) && g in st.configs && st.configs[g].provider == provider
    ensures config == Some(g)
  {
    hide Ids, UniqueKeys;
  }

  /** A sync is paused by a caller whose copy says that it already is, and goes on. */
  method PauseIsSwallowed() returns (ok: bool, paused: bool)
    ensures ok && !paused
  {
    var row := SyncRow(EntityKey("e"), [], 0, false, Strategy(FullThenIncremental, None), Created, false);
    var connections: map<ConnectionId, Connection> := map[[] := Connection(0, 0, None)];
    var rows: map<Id, SyncRow> := map[1 := row];
    var service := new ConnectionAndSyncService(Store(connections, {[]}, map[], rows, map[], map[], map[], false, map[], 2));
    ok := service.ChangeSyncPausedState(1, true, true);
    paused := service.store.rows[1].paused;
  }

  lemma SameKeys(data: ConfigData, paused: bool)
    ensures DistinctKeys(ConnectionArgs(data, paused)) <==> DistinctKeys(Desired(data, None))
  {
    var r, d := ConnectionArgs(data, paused), Desired(data, None);
    assert |r| == |d| && forall i :: 0 <= i < |d| ==> r[i].key == d[i].key;
    hide Desired, ConnectionArgs;
    assert forall i, j :: 0 <= i < j < |d| ==> (r[i].key != r[j].key <==> d[i].key != d[j].key);
  }
}
