/** A schedule changed by hand while a full pass is running: exactly when the pass still
    notices. */
module OutboxFullPass {
  import opened SyncTypes
  import opened Reconcile
  import opened Outbox
  import opened OutboxInvariant
  import opened OutboxWriters
  import opened OutboxWorker
  import opened OutboxSafeWrites
  import opened OutboxTheorems

  // ---- A change by hand during a full pass

  /** The rest of a pass, without a writer or a failure. */
  ghost predicate RestOfPass(run: seq<Moment>) {
    && run != [] && run[|run| - 1].worker == Idle
    && (forall i :: 0 <= i < |run| ==> Ids(run[i].store))
    && (forall i :: 0 <= i < |run| - 1 ==> run[i].worker != Idle)
    && (forall i :: 0 < i < |run| ==> WorkerStep(run[i - 1].store, run[i - 1].worker, run[i].store, run[i].worker))
  }

  predicate InPartThree(w: Worker) {
    match w
    case ReadRows(_, _, _) => true
    case ReadRowConnections(_, _, _, _) => true
    case ReadRowConfigs(_, _, _, _, _) => true
    case Pausing(_, _, _, _, _) => true
    case Deleting(_, _, _, _) => true
    case Upserting(_, _, _, _) => true
    case Scheduling(_, _, _, _) => true
    case ClearFlag => true
    case Idle => true
    case _ => false
  }

  /** No event tells the worker about the row, or the pass will take it up. */
  ghost predicate NoNews(st: Store, w: Worker, s: Id, c: ConnectionId, g: Id) {
    && !Pending(st.connectionChanges, {}, c) && !Pending(st.configChanges, {}, g)
    && (InPartThree(w) ==> !SyncPending(st, w, s))
    && (s in st.rows ==> st.rows[s].connection == c && st.rows[s].config == g)
    && s < st.next
  }

  lemma QueryKeepsNoNews(st: Store, w: Worker, w': Worker, s: Id, c: ConnectionId, g: Id)
    requires (QueryOne(st, w, w') || QueryTwo(st, w, w') || QueryThree(st, w, w')) && w != Idle && NoNews(st, w, s, c, g)
    ensures NoNews(st, w', s, c, g)
  {
    hide TasksOfConnections, TasksOfConfig;
  }

  /** The row keeps its parents, or is new under a new id. */
  ghost predicate RowKept(st: Store, st': Store, s: Id) {
    && st.next <= st'.next
    && (s < st.next && s in st'.rows ==>
          s in st.rows && st'.rows[s].connection == st.rows[s].connection && st'.rows[s].config == st.rows[s].config)
  }

  /** What reconciling one connection leaves alone. */
  ghost predicate OthersKept(st: Store, st': Store) {
    && st'.connectionChanges == st.connectionChanges && st'.configChanges == st.configChanges
    && st'.configs == st.configs && st'.connections == st.connections && st'.schedules == st.schedules
  }

  lemma InsertKeepsRow(st: Store, t: Task, s: Id)
    requires Ids(st) && t.config.Some?
    ensures RowKept(st, CreateSyncs(st, t), s) && OthersKept(st, CreateSyncs(st, t))
  {
    hide CreateMany, HasArg;
  }

  lemma RecordKeepsRow(st: Store, c: ConnectionId, s: Id)
    requires Ids(st)
    ensures RowKept(st, AddSyncChanges(st, c), s) && OthersKept(st, AddSyncChanges(st, c))
  {
    hide AddChanges;
  }

  lemma RemoveKeepsRow(st: Store, t: Task, s: Id)
    ensures RowKept(st, DeleteSyncs(st, t), s) && OthersKept(st, DeleteSyncs(st, t))
  {
    hide KeptBy;
  }

  lemma WriteSyncsKeepsRow(st: Store, w: Worker, st': Store, w': Worker, s: Id)
    requires Ids(st) && WriteSyncs(st, w, st', w')
    ensures RowKept(st, st', s) && OthersKept(st, st')
    ensures w.Reconciling? && w'.Reconciling?
  {
    hide CreateSyncs, AddSyncChanges, DeleteSyncs, CanCreate, RowKept, OthersKept;
    match w.stage {
      case Create => InsertKeepsRow(st, w.todo[0], s);
      case Change => RecordKeepsRow(st, w.todo[0].connection, s);
      case Delete => RemoveKeepsRow(st, w.todo[0], s);
    }
  }

  lemma WriteSyncsKeepsNoNews(st: Store, w: Worker, st': Store, w': Worker, s: Id, c: ConnectionId, g: Id)
    requires Ids(st) && WriteSyncs(st, w, st', w') && NoNews(st, w, s, c, g)
    ensures NoNews(st', w', s, c, g)
  {
    hide WriteSyncs, Pending;
    WriteSyncsKeepsRow(st, w, st', w', s);
  }

  lemma WriteSchedulesKeepsNoNews(st: Store, w: Worker, st': Store, w': Worker, s: Id, c: ConnectionId, g: Id)
    requires WriteSchedules(st, w, st', w') && NoNews(st, w, s, c, g)
    ensures NoNews(st', w', s, c, g)
  {
    hide Pending, StrategyOf, UpsertSchedule, PeriodOf;
  }

  lemma Forgotten<T>(changes: map<Id, T>, ids: set<Id>, t: T)
    ensures Pending(changes - ids, {}, t) ==> Pending(changes, ids, t) && Pending(changes, {}, t)
  {
  }

  lemma FinishKeepsNoNews(st: Store, w: Worker, st': Store, w': Worker, s: Id, c: ConnectionId, g: Id)
    requires FinishPart(st, w, st', w') && NoNews(st, w, s, c, g)
    ensures NoNews(st', w', s, c, g)
  {
    match w {
      case Reconciling(_, ids, One, _, _) => Forgotten(st.connectionChanges, ids, c); hide Pending;
      case Reconciling(_, ids, Two(_, _), _, _) => Forgotten(st.configChanges, ids, g); hide Pending;
      case Upserting(_, ids, _, _) => Forgotten(st.syncChanges, ids, s); hide Pending;
      case _ => hide Pending;
    }
  }

  lemma StepKeepsNoNews(st: Store, w: Worker, st': Store, w': Worker, s: Id, c: ConnectionId, g: Id)
    requires Ids(st) && WorkerStep(st, w, st', w') && w != Idle && NoNews(st, w, s, c, g)
    ensures NoNews(st', w', s, c, g)
  {
    hide NoNews, QueryOne, QueryTwo, QueryThree, WriteSyncs, WriteSchedules, FinishPart, Ids;
    if WriteSyncs(st, w, st', w') {
      WriteSyncsKeepsNoNews(st, w, st', w', s, c, g);
    } else if WriteSchedules(st, w, st', w') {
      WriteSchedulesKeepsNoNews(st, w, st', w', s, c, g);
    } else if FinishPart(st, w, st', w') {
      FinishKeepsNoNews(st, w, st', w', s, c, g);
    } else {
      QueryKeepsNoNews(st, w, w', s, c, g);
    }
  }

  ghost predicate StaysFull(st': Store, w: Worker, w': Worker) {
    IsFull(w') || (w == ClearFlag && w' == Idle && !st'.full)
  }

  lemma QueryStaysFull(st: Store, w: Worker, w': Worker)
    requires (QueryOne(st, w, w') || QueryTwo(st, w, w') || QueryThree(st, w, w')) && IsFull(w)
    ensures IsFull(w')
  {
    hide TasksOfConnections, TasksOfConfig;
  }

  lemma WriteStaysFull(st: Store, w: Worker, st': Store, w': Worker)
    requires Ids(st) && (WriteSyncs(st, w, st', w') || WriteSchedules(st, w, st', w')) && IsFull(w)
    ensures IsFull(w')
  {
    hide Ids, CanCreate, CreateSyncs, AddSyncChanges, DeleteSyncs, StrategyOf, UpsertSchedule, PeriodOf;
  }

  lemma FinishStaysFull(st: Store, w: Worker, st': Store, w': Worker)
    requires FinishPart(st, w, st', w') && IsFull(w)
    ensures StaysFull(st', w, w')
  {
  }

  /** A full pass stays full until it clears the flag. */
  lemma StepStaysFull(st: Store, w: Worker, st': Store, w': Worker)
    requires Ids(st) && WorkerStep(st, w, st', w') && IsFull(w)
    ensures StaysFull(st', w, w')
  {
    hide QueryOne, QueryTwo, QueryThree, WriteSyncs, WriteSchedules, FinishPart, Ids, IsFull;
    if FinishPart(st, w, st', w') {
      hide StaysFull;
      FinishStaysFull(st, w, st', w');
    } else if WriteSyncs(st, w, st', w') || WriteSchedules(st, w, st', w') {
      WriteStaysFull(st, w, st', w');
    } else {
      QueryStaysFull(st, w, w');
    }
  }

  lemma {:induction false} NoticedAlong(run: seq<Moment>, s: Id, c: ConnectionId, g: Id, i: nat)
    requires RestOfPass(run) && i < |run| && IsFull(run[0].worker)
    requires Inv(run[0].store, run[0].worker) && NoNews(run[0].store, run[0].worker, s, c, g)
    ensures Inv(run[i].store, run[i].worker) && NoNews(run[i].store, run[i].worker, s, c, g)
    ensures IsFull(run[i].worker) || (i == |run| - 1 && !run[i].store.full)
  {
    hide Inv, NoNews, WorkerStep, Ids;
    if i > 0 {
      NoticedAlong(run, s, c, g, i - 1);
      var a, b := run[i - 1], run[i];
      WorkerKeepsInv(a.store, a.worker, b.store, b.worker);
      StepKeepsNoNews(a.store, a.worker, b.store, b.worker, s, c, g);
      StepStaysFull(a.store, a.worker, b.store, b.worker);
    }
  }

  lemma QuietRowAgrees(st: Store, s: Id, c: ConnectionId, g: Id)
    requires Inv(st, Idle) && NoNews(st, Idle, s, c, g) && !st.full && s in st.rows
    ensures Agrees(st, s)
  {
    hide Tables, Offsets, Fresh, Backed, NoOrphans, Matched, Agrees, Pending;
    assert RowCovered(st, Idle, s);
  }

  // The worker has passed the row, and will not touch its schedule again.

  ghost predicate Passed(st: Store, w: Worker, s: Id) {
    && InPartThree(w) && s in st.rows && !RowDue(w, s, st.rows[s])
    && match w {
      case ReadRows(_, _, touched) => s !in touched
      case ReadRowConnections(_, _, touched, _) => s !in touched
      case ReadRowConfigs(_, _, touched, _, _) => s !in touched
      case Pausing(_, _, _, gone, left) => s !in gone && s !in left
      case Deleting(_, _, _, left) => s !in left
      case _ => true
    }
  }

  ghost predicate SameForRow(st: Store, st': Store, s: Id)
    requires s in st.rows
  {
    && s in st'.rows && st'.rows[s] == st.rows[s] && st'.configs == st.configs
    && (s in st'.schedules <==> s in st.schedules) && (s in st.schedules ==> st'.schedules[s] == st.schedules[s])
  }

  lemma PassedIsLate(st: Store, w: Worker, st': Store, w': Worker)
    requires InPartThree(w) && w != Idle
    ensures !QueryOne(st, w, w') && !QueryTwo(st, w, w')
    ensures Ids(st) ==> !WriteSyncs(st, w, st', w')
  {
    hide Ids;
  }

  lemma QueryStaysPassed(st: Store, w: Worker, w': Worker, s: Id)
    requires QueryThree(st, w, w') && Passed(st, w, s)
    ensures Passed(st, w', s)
  {
  }

  lemma PauseOrDeleteStaysPassed(st: Store, w: Worker, st': Store, w': Worker, s: Id)
    requires WriteSchedules(st, w, st', w') && (w.Pausing? || w.Deleting?) && Passed(st, w, s)
    ensures Passed(st', w', s) && SameForRow(st, st', s)
  {
    hide RowDue;
    PauseOrDeleteOwesRow(st, w, st', w', s);
    assert w.left[0] in w.left && forall t :: t in w.left[1..] ==> t in w.left;
  }

  lemma PauseOrDeleteOwesRow(st: Store, w: Worker, st': Store, w': Worker, s: Id)
    requires WriteSchedules(st, w, st', w') && (w.Pausing? || w.Deleting?)
    ensures forall row :: RowDue(w', s, row) <==> RowDue(w, s, row)
  {
  }

  lemma StoreStaysPassed(st: Store, w: Worker, st': Store, w': Worker, s: Id)
    requires WriteSchedules(st, w, st', w') && w.Upserting? && Passed(st, w, s)
    ensures Passed(st', w', s) && SameForRow(st, st', s)
  {
    hide StrategyOf;
  }

  lemma ScheduleStaysPassed(st: Store, w: Worker, st': Store, w': Worker, s: Id)
    requires WriteSchedules(st, w, st', w') && w.Scheduling? && Passed(st, w, s)
    ensures Passed(st', w', s) && SameForRow(st, st', s)
  {
    ScheduleWrites(st, w, st', w');
    hide UpsertSchedule, PeriodOf;
    assert w.left == [w.left[0]] + w.left[1..];
  }

  lemma FinishStaysPassed(st: Store, w: Worker, st': Store, w': Worker, s: Id)
    requires FinishPart(st, w, st', w') && Passed(st, w, s)
    ensures Passed(st', w', s) && SameForRow(st, st', s)
  {
  }

  lemma StepStaysPassed(st: Store, w: Worker, st': Store, w': Worker, s: Id)
    requires Ids(st) && WorkerStep(st, w, st', w') && w != Idle && Passed(st, w, s)
    ensures Passed(st', w', s) && SameForRow(st, st', s)
  {
    PassedIsLate(st, w, st', w');
    hide Ids, QueryOne, QueryTwo, QueryThree, WriteSyncs, FinishPart, Passed;
    if FinishPart(st, w, st', w') {
      FinishStaysPassed(st, w, st', w', s);
    } else if WriteSchedules(st, w, st', w') {
      if w.Pausing? || w.Deleting? {
        PauseOrDeleteStaysPassed(st, w, st', w', s);
      } else if w.Upserting? {
        StoreStaysPassed(st, w, st', w', s);
      } else {
        ScheduleStaysPassed(st, w, st', w', s);
      }
    } else {
      QueryStaysPassed(st, w, w', s);
    }
  }

  lemma {:induction false} PassedAlong(run: seq<Moment>, s: Id, i: nat)
    requires RestOfPass(run) && i < |run| && Passed(run[0].store, run[0].worker, s)
    ensures Passed(run[i].store, run[i].worker, s) && SameForRow(run[0].store, run[i].store, s)
  {
    hide WorkerStep, Ids;
    assert s in run[0].store.rows;
    hide Passed;
    if i > 0 {
      PassedAlong(run, s, i - 1);
      StepStaysPassed(run[i - 1].store, run[i - 1].worker, run[i].store, run[i].worker, s);
    }
  }

  lemma NotDueIsPassed(st: Store, w: Worker, s: Id)
    requires Fresh(st, w) && IsFull(w) && s in st.rows && !RowDue(w, s, st.rows[s])
    ensures Passed(st, w, s)
  {
    hide TaskFresh, ConfigFresh, RowFresh;
  }

  ghost predicate Disagrees(st: Store, s: Id) {
    s in st.rows && !Agrees(st, s)
  }

  /** After the pass the schedule agrees with the row exactly when it was due,
      unless the pass has found that the row should go. */
  ghost predicate SettledIff(st: Store, s: Id, due: bool) {
    && (s in st.rows ==> (Agrees(st, s) <==> due))
    && (!due ==> s in st.rows)
  }

  /** Of a schedule changed by hand while a full pass runs, when nothing else is
      recorded for its row: if the pass completes, the schedule agrees with the row
      again exactly when the pass had not yet upserted it. */
  lemma FullPassNotices(st: Store, w: Worker, s: Id, byHand: Option<bool>, run: seq<Moment>)
    requires Ids(st) && s in st.rows && run != [] && run[0] == Moment(Apply(st, Tamper(s, byHand)), w)
    requires Inv(st, w) && IsFull(w) && !AnyEvent(st, s) && RestOfPass(run) && Disagrees(run[0].store, s)
    ensures SettledIff(run[|run| - 1].store, s, RowDue(w, s, st.rows[s]))
  {
    var last, c, g := run[|run| - 1], st.rows[s].connection, st.rows[s].config;
    hide Apply, Agrees, WorkerStep, NoNews;
    assert Fresh(st, w);
    hide Fresh, Inv;
    ByHandWrites(st, s, byHand);
    if RowDue(w, s, st.rows[s]) {
      QuietAtFirst(st, run[0].store, w, s);
      TamperKeepsInv(st, run[0].store, w, s, byHand);
      NoticedAlong(run, s, c, g, |run| - 1);
      if s in last.store.rows {
        QuietRowAgrees(last.store, s, c, g);
      }
    } else {
      NotDueIsPassed(st, w, s);
      PassedInStore(st, run[0].store, w, s);
      hide RowDue, RestOfPass;
      PassedAlong(run, s, |run| - 1);
      SameAgrees(run[0].store, last.store, s);
    }
  }

  lemma PassedInStore(st: Store, st': Store, w: Worker, s: Id)
    requires Passed(st, w, s) && st'.rows == st.rows
    ensures Passed(st', w, s)
  {
  }

  lemma SameAgrees(st: Store, st': Store, s: Id)
    requires s in st.rows && SameForRow(st, st', s)
    ensures Agrees(st, s) <==> Agrees(st', s)
  {
    hide PeriodOf, StrategyOf;
  }

  lemma QuietAtFirst(st: Store, st': Store, w: Worker, s: Id)
    requires Ids(st) && s in st.rows && !AnyEvent(st, s) && st' == st.(schedules := st'.schedules, full := st'.full)
    ensures NoNews(st', w, s, st.rows[s].connection, st.rows[s].config)
  {
  }
}
