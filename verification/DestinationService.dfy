/** Destinations with versions, and the cache of destination writers. */
module DestinationService {
  import opened SyncTypes

  datatype DestinationType = Postgres | BigQuery | Snowflake | Redshift | S3 | Managed
  datatype Config = Config(settings: string, secret: string) // host, schema, ... and the password or key
  datatype Destination = Destination(id: Id, applicationId: Id, name: string, destinationType: DestinationType, config: Config, version: int)

  /** What a client sends to change a destination; without a secret the old one stays. */
  datatype UpdateParams = UpdateParams(id: Id, version: int, applicationId: Id, name: string, destinationType: DestinationType,
                                       settings: string, secret: Option<string>)

  datatype Outcome = Updated(destination: Destination) | NotFound | BadRequest | Conflict

  /** A writer keeps the destination it was built from. */
  datatype Writer = PostgresWriter(destination: Destination) | ManagedWriter

  datatype CacheEntry = CacheEntry(version: int, writer: Option<Writer>)

  function GetNewWriterByDestination(d: Destination): Option<Writer> {
    match d.destinationType
    case Postgres => Some(PostgresWriter(d))
    case Managed => Some(ManagedWriter)
    case _ => None
  }

  function MergeDestinationConfig(existing: Destination, params: UpdateParams): Option<Config> {
    if existing.destinationType == Managed || existing.destinationType != params.destinationType then None
    else Some(Config(params.settings, if params.secret.Some? then params.secret.value else existing.config.secret))
  }

  function UpdatedRow(existing: Destination, params: UpdateParams): Destination
    requires MergeDestinationConfig(existing, params).Some?
  {
    Destination(params.id, params.applicationId, params.name, params.destinationType,
                MergeDestinationConfig(existing, params).value, params.version + 1)
  }

  // ---- The table of destinations over time

  type Table = map<Id, Destination>

  /** Creation under a new id with version 1, or compare and bump: an update only
      hits a row that has the version the client saw. */
  ghost predicate Change(t: Table, t': Table) {
    t' == t || exists id :: Puts(t, t', id)
  }

  predicate Puts(t: Table, t': Table, id: Id) {
    && id in t' && t' == t[id := t'[id]]
    && t'[id].version == if id in t then t[id].version + 1 else 1
  }

  ghost predicate History(history: seq<Table>) {
    && history != [] && history[0] == map[]
    && forall i :: 0 < i < |history| ==> Change(history[i - 1], history[i])
  }

  lemma {:induction false} VersionsGrow(history: seq<Table>, i: nat, j: nat, id: Id)
    requires History(history) && i <= j < |history| && id in history[i]
    ensures id in history[j] && history[i][id].version <= history[j][id].version
    ensures history[i][id].version == history[j][id].version ==> history[i][id] == history[j][id]
  {
    if i < j {
      VersionsGrow(history, i, j - 1, id);
      assert Change(history[j - 1], history[j]);
    }
  }

  /** Over any series of creations and updates, id and version determine the row. */
  lemma VersionDeterminesRow(history: seq<Table>, i: nat, j: nat, id: Id)
    requires History(history) && i < |history| && j < |history| && id in history[i] && id in history[j]
    requires history[i][id].version == history[j][id].version
    ensures history[i][id] == history[j][id]
  {
    if i <= j {
      VersionsGrow(history, i, j, id);
    } else {
      VersionsGrow(history, j, i, id);
    }
  }

  /** The destination as some reader saw it, however long ago. */
  ghost predicate Seen(history: seq<Table>, d: Destination) {
    exists i :: 0 <= i < |history| && d.id in history[i] && history[i][d.id] == d
  }

  lemma SeenOnce(history: seq<Table>, a: Destination, b: Destination)
    requires History(history) && Seen(history, a) && Seen(history, b) && a.id == b.id && a.version == b.version
    ensures a == b
  {
    var i :| 0 <= i < |history| && a.id in history[i] && history[i][a.id] == a;
    var j :| 0 <= j < |history| && b.id in history[j] && history[j][b.id] == b;
    VersionDeterminesRow(history, i, j, a.id);
  }

  /** The row is read between the moment at which the client saw its version and the one
      at which it still has it: then what was read is the row itself. */
  lemma ReadIsCurrent(history: seq<Table>, i: nat, j: nat, k: nat, id: Id)
    requires History(history) && i <= j <= k < |history| && id in history[i] && id in history[j] && id in history[k]
    requires history[i][id].version == history[k][id].version
    ensures history[j][id] == history[k][id]
  {
    VersionsGrow(history, i, j, id);
    VersionsGrow(history, j, k, id);
  }

  /** The writer a destination should have. */
  predicate IsWriterFor(writer: Option<Writer>, d: Destination) {
    && (d.destinationType == Postgres <==> writer.Some? && writer.value.PostgresWriter?)
    && (d.destinationType == Managed <==> writer.Some? && writer.value.ManagedWriter?)
    && (writer.Some? && writer.value.PostgresWriter? ==> writer.value.destination == d)
  }

  class DestinationService {
    var destinations: Table
    var writerCache: map<Id, CacheEntry>
    ghost var history: seq<Table>

    /** Every cached writer is the one a row that was once there would get. */
    ghost predicate Valid()
      reads this
    {
      && History(history) && destinations == history[|history| - 1]
      && (forall id :: id in destinations ==> destinations[id].id == id)
      && (forall id :: id in writerCache ==>
            exists d :: Seen(history, d) && d.id == id && d.version == writerCache[id].version
                        && writerCache[id].writer == GetNewWriterByDestination(d))
    }

    constructor ()
      ensures Valid() && destinations == map[]
    {
      destinations, writerCache, history := map[], map[], [map[]];
    }

    ghost method Record()
      requires History(history) && Change(history[|history| - 1], destinations)
      requires forall id :: id in destinations ==> destinations[id].id == id
      requires forall id :: id in writerCache ==>
                 exists d :: Seen(history, d) && d.id == id && d.version == writerCache[id].version
                             && writerCache[id].writer == GetNewWriterByDestination(d)
      modifies this`history
      ensures Valid() && history == old(history) + [destinations]
    {
      ghost var before := history;
      history := history + [destinations];
      forall i | 0 < i < |history| ensures Change(history[i - 1], history[i]) {
        if i < |before| {
          assert Change(before[i - 1], before[i]);
        }
      }
      forall d | Seen(before, d) ensures Seen(history, d) {
        var i :| 0 <= i < |before| && d.id in before[i] && before[i][d.id] == d;
        assert history[i] == before[i];
      }
    }

    method CreateDestination(id: Id, applicationId: Id, name: string, destinationType: DestinationType, config: Config)
      requires Valid() && id !in destinations
      modifies this
      ensures Valid() && writerCache == old(writerCache)
      ensures destinations == old(destinations)[id := Destination(id, applicationId, name, destinationType, config, 1)]
    {
      destinations := destinations[id := Destination(id, applicationId, name, destinationType, config, 1)];
      assert Puts(old(destinations), destinations, id);
      Record();
    }

    method GetDestinationById(id: Id) returns (d: Option<Destination>)
      requires Valid()
      ensures d.Some? <==> id in destinations
      ensures d.Some? ==> d.value == destinations[id] && Seen(history, d.value)
    {
      d := if id in destinations then Some(destinations[id]) else None;
      assert id in destinations ==> history[|history| - 1][id] == destinations[id];
    }

    /** `existing` was read before; the row may have changed since. The update only
        takes effect on the version the client saw, and then nobody else can update
        that version again. */
    method UpdateDestination(existing: Option<Destination>, params: UpdateParams) returns (r: Outcome)
      requires Valid() && (existing.Some? ==> existing.value.id == params.id && params.id in destinations && Seen(history, existing.value))
      modifies this
      ensures Valid() && writerCache == old(writerCache)
      ensures r.Updated? ==> Seen(history, r.destination)
      ensures r.Updated? <==>
        && params.destinationType != Managed && params.name != "" && existing.Some?
        && existing.value.destinationType == params.destinationType && old(destinations)[params.id].version == params.version
      ensures r == BadRequest <==>
        || params.destinationType == Managed || params.name == ""
        || (existing.Some? && existing.value.destinationType != params.destinationType)
      ensures r == NotFound <==> params.destinationType != Managed && params.name != "" && existing.None?
      ensures r.Updated? && existing.value.version == params.version ==> existing.value == old(destinations)[params.id]
      ensures r.Updated? ==>
        && destinations == old(destinations)[params.id := r.destination] && r.destination.id == params.id
        && r.destination.version == params.version + 1 && r.destination.applicationId == params.applicationId
        && r.destination.name == params.name && r.destination.destinationType == params.destinationType
        && r.destination.config.settings == params.settings
        && (params.secret.Some? ==> r.destination.config.secret == params.secret.value)
        && (params.secret.None? ==> r.destination.config.secret == existing.value.config.secret)
      ensures !r.Updated? ==> destinations == old(destinations)
    {
      if params.destinationType == Managed || params.name == "" {
        return BadRequest;
      }
      if existing.None? {
        return NotFound;
      }
      var mergedConfig := MergeDestinationConfig(existing.value, params);
      if mergedConfig.None? {
        return BadRequest;
      }
      if destinations[params.id].version != params.version {
        return Conflict;
      }
      var d := UpdatedRow(existing.value, params);
      assert history[|history| - 1][params.id] == destinations[params.id];
      if existing.value.version == params.version {
        SeenOnce(history, existing.value, destinations[params.id]);
      }
      destinations := destinations[params.id := d];
      assert Puts(old(destinations), destinations, params.id);
      Record();
      assert history[|history| - 1][params.id] == d;
      return Updated(d);
    }

    /** For any destination that was ever read, and whatever updates and lookups
        came in between: the writer is the one a fresh build would give. */
    method GetWriterByDestination(destination: Destination) returns (writer: Option<Writer>)
      requires Valid() && Seen(history, destination)
      modifies this`writerCache
      ensures Valid()
      ensures IsWriterFor(writer, destination)
    {
      if destination.id in writerCache {
        var entry := writerCache[destination.id];
        if destination.version == entry.version {
          ghost var d :| Seen(history, d) && d.id == destination.id && d.version == entry.version
                         && entry.writer == GetNewWriterByDestination(d);
          SeenOnce(history, d, destination);
          return entry.writer;
        }
      }
      writer := GetNewWriterByDestination(destination);
      writerCache := writerCache[destination.id := CacheEntry(destination.version, writer)];
    }
  }

  /** A lookup after an update finds what the client sent: its settings, and its secret or
      else the one of the row it had seen. */
  method LookUpAfterUpdate(service: DestinationService, existing: Destination, params: UpdateParams) returns (r: Outcome, writer: Option<Writer>)
    requires service.Valid() && existing.id == params.id && params.id in service.destinations && Seen(service.history, existing)
    requires existing.version == params.version
    modifies service
    ensures service.Valid()
    ensures r.Updated? ==>
      && IsWriterFor(writer, r.destination)
      && (params.destinationType == Postgres ==>
            && writer.Some? && writer.value.PostgresWriter?
            && writer.value.destination.config.settings == params.settings
            && writer.value.destination.config.secret
               == if params.secret.Some? then params.secret.value else old(service.destinations)[params.id].config.secret)
  {
    writer := None;
    r := service.UpdateDestination(Some(existing), params);
    if r.Updated? {
      writer := service.GetWriterByDestination(r.destination);
    }
  }
}
