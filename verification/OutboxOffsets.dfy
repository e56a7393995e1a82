/** The offsets of schedules, in every run whatever is written. */
module OutboxOffsets {
  import opened StringHash
  import opened SyncTypes
  import opened Reconcile
  import opened Outbox
  import opened OutboxInvariant
  import opened OutboxTheorems

  /** The rows the worker has read and may upsert. */
  function PlannedRows(w: Worker): map<Id, SyncRow> {
    match w
    case ReadRowConnections(_, _, _, rows) => rows
    case ReadRowConfigs(_, _, _, rows, _) => rows
    case Pausing(_, _, plan, _, _) => plan.rows
    case Deleting(_, _, plan, _) => plan.rows
    case Upserting(_, _, plan, _) => plan.rows
    case Scheduling(_, _, plan, _) => plan.rows
    case _ => map[]
  }

  /** A sync keeps its connection: in its row, in its schedule, and in what the
      worker has read of it. */
  ghost predicate OffsetInv(st: Store, w: Worker) {
    && Offsets(st)
    && (forall s :: s in PlannedRows(w) ==>
          && s < st.next
          && (s in st.schedules ==> st.schedules[s].connection == PlannedRows(w)[s].connection)
          && (s in st.rows ==> st.rows[s].connection == PlannedRows(w)[s].connection))
  }

  /** Rows are new under new ids, or keep their connection. */
  ghost predicate RowsFollow(st: Store, st': Store) {
    && st.next <= st'.next
    && (forall s :: s in st'.rows ==> (s in st.rows && st'.rows[s].connection == st.rows[s].connection) || s >= st.next)
  }

  /** Schedules go, or keep connection, period and offset. */
  ghost predicate SchedulesFollow(st: Store, st': Store) {
    forall s :: s in st'.schedules ==>
      && s in st.schedules && st'.schedules[s].connection == st.schedules[s].connection
      && st'.schedules[s].every == st.schedules[s].every && st'.schedules[s].offset == st.schedules[s].offset
  }

  lemma FollowingKeepsOffsets(st: Store, w: Worker, st': Store, w': Worker)
    requires Ids(st) && OffsetInv(st, w) && RowsFollow(st, st') && SchedulesFollow(st, st')
    requires PlannedRows(w') == PlannedRows(w) || PlannedRows(w') == map[]
    ensures OffsetInv(st', w')
  {
    hide StringToNumber, PlannedRows;
  }

  lemma DeletionFollows(st: Store, a: Write)
    requires Ids(st) && Enabled(st, a) && (a.DeleteConnection? || a.DeleteConfig? || a.CascadeDelete?)
    ensures RowsFollow(st, Apply(st, a)) && SchedulesFollow(st, Apply(st, a))
  {
    hide AddChanges, Cascades;
  }

  lemma UpsertFollows(st: Store, a: Write)
    requires Ids(st) && Enabled(st, a) && a.UpsertConnection?
    ensures RowsFollow(st, Apply(st, a)) && SchedulesFollow(st, Apply(st, a))
  {
    hide Ids, Connected;
  }

  lemma OthersFollow(st: Store, a: Write)
    requires Ids(st) && Enabled(st, a) && !a.CreateConnection? && !a.UpsertConnection?
    requires !a.DeleteConnection? && !a.DeleteConfig? && !a.CascadeDelete?
    ensures RowsFollow(st, Apply(st, a)) && SchedulesFollow(st, Apply(st, a))
  {
    hide Ids;
  }

  lemma WriteFollows(st: Store, a: Write)
    requires Ids(st) && Enabled(st, a) && !a.CreateConnection?
    ensures RowsFollow(st, Apply(st, a)) && SchedulesFollow(st, Apply(st, a))
  {
    if a.DeleteConnection? || a.DeleteConfig? || a.CascadeDelete? {
      hide *;
      DeletionFollows(st, a);
    } else if a.UpsertConnection? {
      hide *;
      UpsertFollows(st, a);
    } else {
      hide *;
      OthersFollow(st, a);
    }
  }

  lemma CreateFollows(st: Store, a: Write)
    requires Ids(st) && Enabled(st, a) && a.CreateConnection?
    ensures RowsFollow(st, Apply(st, a)) && SchedulesFollow(st, Apply(st, a))
  {
    hide AddChanges, CreateMany, Desired, ConnectionArgs;
  }

  lemma InsertFollows(st: Store, t: Task)
    requires Ids(st) && t.config.Some?
    ensures RowsFollow(st, CreateSyncs(st, t)) && SchedulesFollow(st, CreateSyncs(st, t))
  {
    hide CreateMany, HasArg;
  }

  lemma RecordFollows(st: Store, c: ConnectionId)
    requires Ids(st)
    ensures RowsFollow(st, AddSyncChanges(st, c)) && SchedulesFollow(st, AddSyncChanges(st, c))
  {
    hide AddChanges;
  }

  lemma RemoveFollows(st: Store, t: Task)
    ensures RowsFollow(st, DeleteSyncs(st, t)) && SchedulesFollow(st, DeleteSyncs(st, t))
  {
    hide KeptBy;
  }

  lemma WriteSyncsFollows(st: Store, w: Worker, st': Store, w': Worker)
    requires Ids(st) && WriteSyncs(st, w, st', w')
    ensures RowsFollow(st, st') && SchedulesFollow(st, st') && PlannedRows(w') == PlannedRows(w) == map[]
  {
    hide CreateSyncs, AddSyncChanges, DeleteSyncs, RowsFollow, SchedulesFollow, CanCreate;
    match w.stage {
      case Create => InsertFollows(st, w.todo[0]);
      case Change => RecordFollows(st, w.todo[0].connection);
      case Delete => RemoveFollows(st, w.todo[0]);
    }
  }

  lemma FinishFollows(st: Store, w: Worker, st': Store, w': Worker)
    requires FinishPart(st, w, st', w')
    ensures RowsFollow(st, st') && SchedulesFollow(st, st') && PlannedRows(w') == map[]
  {
  }

  lemma EarlyQueryPlansNothing(st: Store, w: Worker, w': Worker)
    requires QueryOne(st, w, w') || QueryTwo(st, w, w')
    ensures PlannedRows(w') == map[]
  {
    hide TasksOfConnections, TasksOfConfig;
  }

  lemma QueryPlansRows(st: Store, w: Worker, w': Worker)
    requires QueryThree(st, w, w')
    ensures PlannedRows(w') == PlannedRows(w) || forall s :: s in PlannedRows(w') ==> s in st.rows && PlannedRows(w')[s] == st.rows[s]
  {
  }

  lemma QueryKeepsOffsets(st: Store, w: Worker, w': Worker)
    requires Ids(st) && OffsetInv(st, w) && (QueryOne(st, w, w') || QueryTwo(st, w, w') || QueryThree(st, w, w'))
    ensures OffsetInv(st, w')
  {
    assert forall s :: s in st.schedules && s in st.rows ==> st.schedules[s].connection == st.rows[s].connection;
    hide Offsets, QueryOne, QueryTwo, QueryThree, PlannedRows;
    if QueryThree(st, w, w') {
      QueryPlansRows(st, w, w');
    } else {
      EarlyQueryPlansNothing(st, w, w');
    }
  }

  /** The upserted schedule has the offset its connection and period determine. */
  lemma UpsertedSchedule(st: Store, s: Id, row: SyncRow, every: Period)
    requires Offsets(st) && (s in st.schedules ==> st.schedules[s].connection == row.connection)
    ensures var r := UpsertSchedule(st.schedules, s, row, every);
            && r == st.schedules[s := r[s]] && r[s].connection == row.connection
            && r[s].offset == StringToNumber(r[s].connection, r[s].every)
  {
    hide StringToNumber;
  }

  lemma UpsertKeepsOffsets(st: Store, w: Worker, st': Store, w': Worker)
    requires Ids(st) && OffsetInv(st, w) && w.Scheduling? && WriteSchedules(st, w, st', w')
    ensures OffsetInv(st', w')
  {
    var x, row := w.left[0], w.plan.rows[w.left[0]];
    assert PlannedRows(w') == PlannedRows(w) == w.plan.rows;
    UpsertedSchedule(st, x, row, PeriodOf(w.plan.configs[row.config].data, row.key));
    hide PeriodOf, UpsertSchedule, StringToNumber, PlannedRows;
  }

  lemma ScheduleFollows(st: Store, w: Worker, st': Store, w': Worker)
    requires WriteSchedules(st, w, st', w') && !w.Scheduling?
    ensures RowsFollow(st, st') && SchedulesFollow(st, st') && PlannedRows(w') == PlannedRows(w)
  {
    hide StrategyOf;
  }

  lemma WorkerKeepsOffsets(st: Store, w: Worker, st': Store, w': Worker)
    requires Ids(st) && OffsetInv(st, w) && WorkerStep(st, w, st', w')
    ensures OffsetInv(st', w')
  {
    hide OffsetInv, QueryOne, QueryTwo, QueryThree, WriteSyncs, WriteSchedules, FinishPart, RowsFollow, SchedulesFollow, Ids;
    if WriteSyncs(st, w, st', w') {
      WriteSyncsFollows(st, w, st', w');
      FollowingKeepsOffsets(st, w, st', w');
    } else if WriteSchedules(st, w, st', w') {
      if w.Scheduling? {
        UpsertKeepsOffsets(st, w, st', w');
      } else {
        ScheduleFollows(st, w, st', w');
        FollowingKeepsOffsets(st, w, st', w');
      }
    } else if FinishPart(st, w, st', w') {
      FinishFollows(st, w, st', w');
      FollowingKeepsOffsets(st, w, st', w');
    } else {
      QueryKeepsOffsets(st, w, w');
    }
  }

  lemma WriteKeepsOffsets(st: Store, w: Worker, a: Write)
    requires Ids(st) && OffsetInv(st, w) && Enabled(st, a)
    ensures OffsetInv(Apply(st, a), w)
  {
    hide *;
    if a.CreateConnection? { CreateFollows(st, a); } else { WriteFollows(st, a); }
    FollowingKeepsOffsets(st, w, Apply(st, a), w);
  }

  lemma StopKeepsOffsets(st: Store, w: Worker)
    requires OffsetInv(st, w)
    ensures OffsetInv(st, Idle)
  {
    hide Offsets;
  }

  lemma NextKeepsOffsets(st: Store, w: Worker, st': Store, w': Worker)
    requires Ids(st) && OffsetInv(st, w) && Next(st, w, st', w')
    ensures OffsetInv(st', w')
  {
    hide *;
    if WorkerStep(st, w, st', w') {
      WorkerKeepsOffsets(st, w, st', w');
    } else if st' == st && w' == Idle {
      StopKeepsOffsets(st, w);
    } else {
      var a := TheWrite(st, w, st', w');
      WriteKeepsOffsets(st, w, a);
    }
  }

  lemma {:induction false} OffsetInvAlways(run: seq<Moment>, i: nat)
    requires Run(run) && Start(run[0]) && i < |run|
    ensures OffsetInv(run[i].store, run[i].worker)
  {
    hide Next, Ids, OffsetInv;
    if i == 0 {
      StartHasOffsets(run[0]);
    } else {
      OffsetInvAlways(run, i - 1);
      NextKeepsOffsets(run[i - 1].store, run[i - 1].worker, run[i].store, run[i].worker);
    }
  }

  lemma StartHasOffsets(m: Moment)
    requires Start(m)
    ensures OffsetInv(m.store, m.worker)
  {
  }

  /** At every moment of every run: syncs of one connection with the same period run
      at the same offset, which lies within the period. */
  lemma OffsetsAlways(run: seq<Moment>, i: nat, s: Id, t: Id)
    requires Run(run) && Start(run[0]) && i < |run|
    requires s in run[i].store.schedules && t in run[i].store.schedules
    ensures var x, y := run[i].store.schedules[s], run[i].store.schedules[t];
            && 0 <= x.offset < x.every && x.offset == StringToNumber(x.connection, x.every)
            && (x.connection == y.connection && x.every == y.every ==> x.offset == y.offset)
  {
    hide Run, Start;
    OffsetInvAlways(run, i);
  }

  datatype Upsert = Upsert(s: Id, row: SyncRow, every: Period)

  /** A series of upserts, keeping the interval while the period stays the same. */
  function KeptIntervals(series: seq<Upsert>): map<Id, Schedule> {
    if series == [] then map[]
    else
      var u := series[|series| - 1];
      UpsertSchedule(KeptIntervals(series[..|series| - 1]), u.s, u.row, u.every)
  }

  /** The same series, always computing the interval anew. */
  function RecomputedIntervals(series: seq<Upsert>): map<Id, Schedule> {
    if series == [] then map[]
    else
      var u := series[|series| - 1];
      RecomputedIntervals(series[..|series| - 1])[u.s := Schedule(u.row.connection, u.row.paused, u.every, StringToNumber(u.row.connection, u.every))]
  }

  /** A sync never changes its connection. */
  ghost predicate SameConnections(series: seq<Upsert>) {
    forall i, j :: 0 <= i < |series| && 0 <= j < |series| && series[i].s == series[j].s ==> series[i].row.connection == series[j].row.connection
  }

  /** Keeping the interval is the same as recomputing it, over any series of upserts
      with any changes of period; the schedule of a sync is its last upsert's. */
  lemma {:induction false} KeepingIsRecomputing(series: seq<Upsert>)
    requires SameConnections(series)
    ensures KeptIntervals(series) == RecomputedIntervals(series)
    ensures forall s :: s in KeptIntervals(series) ==> LastUpsert(series, s, KeptIntervals(series)[s])
  {
    if series != [] {
      var init, u := series[..|series| - 1], series[|series| - 1];
      KeepingIsRecomputing(init);
      if u.s in KeptIntervals(init) {
        LastUpsertSays(init, u.s, KeptIntervals(init)[u.s]);
        assert KeptIntervals(init)[u.s].connection == u.row.connection;
      }
      hide StringToNumber, LastUpsert, SameConnections;
      forall s | s in KeptIntervals(series) ensures LastUpsert(series, s, KeptIntervals(series)[s]) {
        LastUpsertGrows(init, u, s);
        assert series == init + [u];
      }
    }
  }

  lemma LastUpsertSays(series: seq<Upsert>, s: Id, schedule: Schedule)
    requires LastUpsert(series, s, schedule)
    ensures schedule.offset == StringToNumber(schedule.connection, schedule.every)
    ensures exists i :: 0 <= i < |series| && series[i].s == s && schedule.connection == series[i].row.connection
  {
    hide StringToNumber;
  }

  lemma LastUpsertGrows(init: seq<Upsert>, u: Upsert, s: Id)
    ensures LastUpsert(init + [u], u.s, ScheduleOf(u))
    ensures forall schedule :: s != u.s && LastUpsert(init, s, schedule) ==> LastUpsert(init + [u], s, schedule)
  {
    var series := init + [u];
    assert series[|init|] == u;
    forall schedule | s != u.s && LastUpsert(init, s, schedule) ensures LastUpsert(series, s, schedule) {
      var i :| 0 <= i < |init| && init[i].s == s && ScheduleOf(init[i]) == schedule && forall j :: i < j < |init| ==> init[j].s != s;
      assert series[i] == init[i];
    }
  }

  function ScheduleOf(u: Upsert): Schedule {
    Schedule(u.row.connection, u.row.paused, u.every, StringToNumber(u.row.connection, u.every))
  }

  ghost predicate LastUpsert(series: seq<Upsert>, s: Id, schedule: Schedule) {
    exists i :: 0 <= i < |series| && series[i].s == s && ScheduleOf(series[i]) == schedule
                && forall j :: i < j < |series| ==> series[j].s != s
  }
}
