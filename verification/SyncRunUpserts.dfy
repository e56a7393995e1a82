/** What the upserts of the API do to a run: what a pass delivers despite them, and how
    a stale one leaves a record wrong below the watermark. */
module SyncRunUpserts {
  import opened SyncTypes
  import opened DestinationWriter
  import opened SyncRun
  import opened SyncRunData

  // ---- The records as they were fetched

  /** The version, or one with a later stamp. */
  predicate HasVersionOrLater(job: Job, dest: Table, id: int, row: Row) {
    && OurKey(job, id) in dest
    && (dest[OurKey(job, id)] == row || dest[OurKey(job, id)].lastModified > row.lastModified)
  }

  function Fetched(pc: Pc): Source {
    match pc
    case Writing(_, _, source, _, _) => source
    case Synced(_, _, source, _, _) => source
    case Saved(_, _, source, _) => source
    case Cleared(_, _, source, _) => source
    case _ => map[]
  }

  /** Every fetched record that the pass does not have to write any more is there as it
      was fetched, or newer. */
  ghost predicate FetchInv(w: World) {
    var source := Fetched(w.pc);
    forall id :: id in source && !Above(source[id].lastModified, Level(w.pc)) ==> HasVersionOrLater(w.job, w.dest, id, source[id])
  }

  /** The API writes an older version than the pass has fetched. */
  predicate Outdated(w: World, r: Record) {
    var source := Fetched(w.pc);
    && r.id in source && !Above(source[r.id].lastModified, Level(w.pc))
    && r.row != source[r.id] && r.row.lastModified <= source[r.id].lastModified
  }

  lemma UpsertIsNotOutdated(w: World, w': World, r: Record)
    requires FetchInv(w) && ApiUpsert(w, w', r)
    ensures FetchInv(w') <==> !Outdated(w, r)
  {
    var source := Fetched(w.pc);
    forall id | id in source && id != r.id && HasVersionOrLater(w.job, w.dest, id, source[id])
      ensures HasVersionOrLater(w'.job, w'.dest, id, source[id])
    {
    }
    if Outdated(w, r) {
      assert !HasVersionOrLater(w'.job, w'.dest, r.id, source[r.id]);
    }
  }

  lemma OthersKeepFetched(w: World, w': World)
    requires FetchInv(w) && Others(w, w') && forall r :: ApiUpsert(w, w', r) ==> !Outdated(w, r)
    ensures FetchInv(w')
  {
    if exists r :: ApiUpsert(w, w', r) {
      var r :| ApiUpsert(w, w', r);
      hide FetchInv, ApiUpsert, Outdated;
      UpsertIsNotOutdated(w, w', r);
    } else {
      OthersKeep(w, w');
      assert Environment(w, w') ==> forall id :: Unchanged(w.dest, w'.dest, OurKey(w.job, id));
      hide ApiUpsert;
    }
  }

  lemma WriteKeepsVersion(w: World, w': World, id: int)
    requires StampInv(w) && FetchInv(w) && w.pc.Writing? && Activity(w, w') && id in w.pc.source
    requires !Above(w.pc.source[id].lastModified, Level(w'.pc)) && w'.pc.Synced?
    ensures HasVersionOrLater(w'.job, w'.dest, id, w.pc.source[id])
  {
    var source, stream, after := w.pc.source, w.pc.stream, UpdatedAfter(w.pc.sync, w.pc.strategy);
    hide Written, PartlyCopied, IsMax, IsStream, Since;
    assert Written(w.dest, w'.dest, w.job.tenant, w.job.objectName, stream, Deletes(w.job, after));
    WrittenVersion(w.job, w.dest, w'.dest, source, after, stream, id);
    if Above(source[id].lastModified, after) {
      StreamHasId(source, after, stream, id);
    } else {
      assert id in Fetched(w.pc) && HasVersionOrLater(w.job, w.dest, id, source[id]);
    }
  }

  lemma ActivityKeepsFetched(w: World, w': World)
    requires DataInv(w) && FetchInv(w) && Activity(w, w')
    ensures FetchInv(w')
  {
    match w.pc {
      case Syncing(_, _) =>
        hide IsStream;
        forall id | id in w.source && HasVersion(w.job, w.dest, id, w.source[id])
          ensures HasVersionOrLater(w'.job, w'.dest, id, w.source[id])
        {
        }
      case Writing(_, _, source, _, _) =>
        hide FetchInv;
        if w'.pc.Synced? {
          forall id | id in source && !Above(source[id].lastModified, Level(w'.pc))
            ensures HasVersionOrLater(w'.job, w'.dest, id, source[id])
          {
            WriteKeepsVersion(w, w', id);
          }
        }
        FetchedIs(w');
      case _ =>
        hide IsStream, Finish, GetSyncStrategy, Holds, Since, Clocked, FetchInv;
        SameFetched(w, w');
    }
  }

  lemma SameFetched(w: World, w': World)
    requires FetchInv(w) && w'.job == w.job && w'.dest == w.dest
    requires Fetched(w'.pc) == map[] || (Fetched(w'.pc) == Fetched(w.pc) && Level(w'.pc) == Level(w.pc))
    ensures FetchInv(w')
  {
    hide HasVersionOrLater, Fetched, Level;
  }

  lemma FetchedIs(w: World)
    requires w.pc.Synced? ==>
      forall id :: id in w.pc.source && !Above(w.pc.source[id].lastModified, Level(w.pc)) ==> HasVersionOrLater(w.job, w.dest, id, w.pc.source[id])
    requires w.pc.Synced? || w.pc.Syncing?
    ensures FetchInv(w)
  {
  }

  lemma WorkflowKeepsFetched(w: World, w': World)
    requires DataInv(w) && FetchInv(w) && (Activity(w, w') || Interrupted(w, w'))
    ensures FetchInv(w')
  {
    hide Activity, DataInv, Interrupted;
    if Activity(w, w') {
      hide FetchInv;
      ActivityKeepsFetched(w, w');
    } else {
      var mid := WhatInterrupts(w, w');
    }
  }

  /** No upsert by the API between the two moments is outdated. */
  ghost predicate CurrentBetween(run: seq<World>, b: nat, i: nat)
    requires b <= i < |run|
  {
    forall k, r :: b < k <= i && UpsertsAt(run, k, r) ==> !Outdated(run[k - 1], r)
  }

  lemma CurrentBefore(run: seq<World>, b: nat, i: nat, j: nat)
    requires b <= i <= j < |run| && CurrentBetween(run, b, j)
    ensures CurrentBetween(run, b, i)
  {
    hide Outdated, UpsertsAt;
  }

  lemma FetchedStep(run: seq<World>, b: nat, i: nat)
    requires b < i < |run| && Run(run) && DataInv(run[i - 1]) && FetchInv(run[i - 1]) && CurrentBetween(run, b, i)
    ensures FetchInv(run[i])
  {
    var w, w' := run[i - 1], run[i];
    assert Step(w, w') && forall r :: ApiUpsert(w, w', r) ==> UpsertsAt(run, i, r);
    hide Run, DataInv, FetchInv, Activity, Interrupted, Others, Outdated;
    if Others(w, w') {
      OthersKeepFetched(w, w');
    } else {
      WorkflowKeepsFetched(w, w');
    }
  }

  lemma NothingIsFetched(w: World, b: nat)
    requires Anew(w, b) && (b == 0 ==> Start(w))
    ensures FetchInv(w)
  {
  }

  lemma {:induction false} FetchedAlways(run: seq<World>, b: nat, i: nat)
    requires Run(run) && b <= i < |run| && Anew(run[b], b) && HarmlessBetween(run, b, i) && CurrentBetween(run, b, i)
    ensures FetchInv(run[i])
  {
    assert b == 0 ==> Start(run[b]);
    hide *;
    if i == b {
      NothingIsFetched(run[b], b);
    } else {
      HarmlessBefore(run, b, i - 1, i);
      CurrentBefore(run, b, i - 1, i);
      FetchedAlways(run, b, i - 1);
      DataAlways(run, b, i - 1);
      FetchedStep(run, b, i);
    }
  }

  /** When a run ends in success, every record it fetched is in the destination in the
      version it fetched or a later one. */
  lemma SuccessDeliversFetched(run: seq<World>, b: nat, i: nat, id: int)
    requires Run(run) && b <= i < |run| && Anew(run[b], b) && HarmlessBetween(run, b, i) && CurrentBetween(run, b, i)
    requires run[i].pc.Cleared? && id in run[i].pc.source
    ensures HasVersionOrLater(run[i].job, run[i].dest, id, run[i].pc.source[id])
  {
    FetchedAlways(run, b, i);
    StampsAlways(run, i);
    hide Run, HasVersionOrLater, Since;
    assert id in Fetched(run[i].pc) && !Above(run[i].pc.source[id].lastModified, Level(run[i].pc));
  }

  // ---- After a full pass with deletion

  function LiveOf(source: Source): set<Record> {
    set id | id in source && !source[id].deleted :: Record(id, source[id])
  }

  /** After its write, a full pass that deletes has left exactly the live records it
      fetched. */
  ghost predicate ExactInv(w: World) {
    (w.pc.Synced? || w.pc.Saved? || w.pc.Cleared?) && w.pc.strategy == Full && Deletes(w.job, None) ==>
      LiveRecords(w.dest, w.job.tenant, w.job.objectName) == LiveOf(Fetched(w.pc))
  }

  lemma FullWriteIsExact(job: Job, dest: Table, dest': Table, source: Source, stream: seq<Record>)
    requires IsStream(source, None, stream) && Written(dest, dest', job.tenant, job.objectName, stream, true)
    ensures LiveRecords(dest', job.tenant, job.objectName) == LiveOf(source)
  {
    FullWriteLeavesTheStream(dest, dest', job.tenant, job.objectName, stream);
    hide Written;
    forall r | r in LiveRecords(dest', job.tenant, job.objectName) ensures r in LiveOf(source) {
      assert Latest(stream, r.id, r.row);
      LatestIsTheSource(source, None, stream, r.id, r.row);
    }
    forall r | r in LiveOf(source) ensures r in LiveRecords(dest', job.tenant, job.objectName) {
      StreamHasId(source, None, stream, r.id);
      var k := OurKey(job, r.id);
      LatestIsTheSource(source, None, stream, r.id, dest'[k]);
      assert k in dest' && Record(k.id, dest'[k]) == r;
    }
  }

  lemma OthersKeepExact(w: World, w': World)
    requires ExactInv(w) && Others(w, w') && forall r :: !ApiUpsert(w, w', r)
    ensures ExactInv(w')
  {
    var t, o := w.job.tenant, w.job.objectName;
    OthersKeep(w, w');
    assert forall k :: Ours(w.job, k) ==> Unchanged(w.dest, w'.dest, k);
    hide Others;
    assert LiveRecords(w.dest, t, o) == LiveRecords(w'.dest, t, o) by {
      forall r ensures r in LiveRecords(w.dest, t, o) <==> r in LiveRecords(w'.dest, t, o) {
        LiveAt(w.dest, t, o, r);
        LiveAt(w'.dest, t, o, r);
        assert Unchanged(w.dest, w'.dest, OurKey(w.job, r.id));
      }
    }
  }

  lemma LiveAt(rows: Table, t: Tenant, o: Option<string>, r: Record)
    ensures r in LiveRecords(rows, t, o) <==> Key(t, o, r.id) in rows && rows[Key(t, o, r.id)] == r.row && !r.row.deleted
  {
    var k := Key(t, o, r.id);
    if k in rows && rows[k] == r.row && !r.row.deleted {
      assert Record(k.id, rows[k]) == r;
    }
  }

  lemma ActivityKeepsExact(w: World, w': World)
    requires StampInv(w) && ExactInv(w) && Activity(w, w')
    ensures ExactInv(w')
  {
    hide LiveRecords, LiveOf, IsStream, Finish, GetSyncStrategy, Since, Clocked, Written, IsMax, Attempted;
    if w'.pc.Synced? && w'.pc.strategy == Full && Deletes(w.job, None) {
      FullWriteIsExact(w.job, w.dest, w'.dest, w.pc.source, w.pc.stream);
    }
  }

  ghost predicate QuietBetween(run: seq<World>, f: nat, i: nat)
    requires f <= i < |run|
  {
    forall k, r :: f < k <= i ==> !UpsertsAt(run, k, r)
  }

  lemma QuietStep(run: seq<World>, f: nat, i: nat, r: Record)
    requires f < i < |run| && QuietBetween(run, f, i)
    ensures !ApiUpsert(run[i - 1], run[i], r)
  {
    assert !UpsertsAt(run, i, r);
  }

  lemma QuietBefore(run: seq<World>, f: nat, i: nat)
    requires f < i < |run| && QuietBetween(run, f, i)
    ensures QuietBetween(run, f, i - 1)
  {
    hide UpsertsAt;
  }

  lemma {:induction false} ExactAlways(run: seq<World>, f: nat, i: nat)
    requires Run(run) && f <= i < |run| && run[f].pc.Syncing? && QuietBetween(run, f, i)
    ensures ExactInv(run[i])
  {
    if f == i {
      hide Run;
      NothingIsExact(run[i]);
    } else {
      var w, w' := run[i - 1], run[i];
      assert Step(w, w');
      hide *;
      forall r ensures !ApiUpsert(w, w', r) {
        QuietStep(run, f, i, r);
      }
      QuietBefore(run, f, i);
      ExactAlways(run, f, i - 1);
      StampsAlways(run, i - 1);
      ExactStep(w, w');
    }
  }

  lemma ExactStep(w: World, w': World)
    requires StampInv(w) && ExactInv(w) && Step(w, w') && forall r :: !ApiUpsert(w, w', r)
    ensures ExactInv(w')
  {
    hide StampInv, ExactInv, Activity, Interrupted, Others, ApiUpsert;
    if Others(w, w') {
      OthersKeepExact(w, w');
    } else if Activity(w, w') {
      ActivityKeepsExact(w, w');
    } else {
      var mid := WhatInterrupts(w, w');
      NothingIsExact(w');
    }
  }

  lemma NothingIsExact(w: World)
    requires w.pc.Idle? || w.pc.Failing? || w.pc.Syncing?
    ensures ExactInv(w)
  {
  }

  /** When a full run succeeds for a provider that lists everything and the API has not
      upserted since it fetched, the live rows of the sync are exactly the live records fetched. */
  lemma FullSuccessIsExact(run: seq<World>, f: nat, i: nat)
    requires Run(run) && f <= i < |run| && run[f].pc.Syncing? && QuietBetween(run, f, i)
    requires run[i].pc.Cleared? && run[i].pc.strategy == Full && run[i].job.tenant.providerName != "apollo"
    ensures LiveRecords(run[i].dest, run[i].job.tenant, run[i].job.objectName) == LiveOf(run[i].pc.source)
  {
    ExactAlways(run, f, i);
    hide Run, LiveRecords, LiveOf;
  }

  // ---- Stale upserts

  /** An incremental pass is writing, and the provider did not send the record. */
  predicate LeavesOut(pc: Pc, id: int) {
    pc.Writing? ==> UpdatedAfter(pc.sync, pc.strategy).Some? && !HasId(pc.stream, id)
  }

  /** The record is neither edited nor upserted again, and no pass writes it. */
  ghost predicate LeftOutBetween(run: seq<World>, i: nat, j: nat, id: int, row: Row)
    requires i <= j < |run|
  {
    && (forall k :: i <= k <= j ==> id in run[k].source && run[k].source[id] == row && LeavesOut(run[k].pc, id))
    && (forall k, r :: i < k <= j && UpsertsAt(run, k, r) ==> r.id != id)
  }

  lemma WriteLeavesOut(w: World, w': World, id: int)
    requires w.pc.Writing? && Activity(w, w') && LeavesOut(w.pc, id)
    ensures Unchanged(w.dest, w'.dest, OurKey(w.job, id))
  {
    hide IsMax, IsCopied, PartlyCopied, Written;
    assert !Deletes(w.job, UpdatedAfter(w.pc.sync, w.pc.strategy));
    OthersAreUntouched(w.dest, w'.dest, w.job.tenant, w.job.objectName, w.pc.stream, false, OurKey(w.job, id));
  }

  lemma StepLeavesOut(w: World, w': World, id: int)
    requires Step(w, w') && LeavesOut(w.pc, id) && forall r :: ApiUpsert(w, w', r) ==> r.id != id
    ensures Unchanged(w.dest, w'.dest, OurKey(w.job, id)) && w'.job == w.job
  {
    hide Activity, Interrupted, LeavesOut;
    if Others(w, w') {
    } else {
      var mid := w';
      if !Activity(w, w') {
        mid := WhatInterrupts(w, w');
      }
      if mid != w {
        ActivityKeeps(w, mid);
        if w.pc.Writing? {
          WriteLeavesOut(w, mid, id);
        } else {
          OnlyWritesWrite(w, mid);
        }
      }
    }
  }

  lemma OnlyWritesWrite(w: World, w': World)
    requires Activity(w, w') && !w.pc.Writing?
    ensures w'.dest == w.dest
  {
    hide IsStream, BeginState, DoneState, GetSyncStrategy, UpdatedAfter, Finish;
  }

  /** A record that is wrong stays wrong over any number of incremental passes whose
      provider sends only what was modified since the watermark. */
  lemma {:induction false} WrongStaysWrong(run: seq<World>, i: nat, j: nat, id: int, row: Row)
    requires Run(run) && i <= j < |run| && LeftOutBetween(run, i, j, id, row)
    requires !HasVersion(run[i].job, run[i].dest, id, row)
    ensures !HasVersion(run[j].job, run[j].dest, id, row)
  {
    if i < j {
      WrongStaysWrong(run, i, j - 1, id, row);
      var w, w' := run[j - 1], run[j];
      assert Step(w, w') && LeavesOut(w.pc, id) && forall r :: ApiUpsert(w, w', r) ==> UpsertsAt(run, j, r);
      hide Step, Run, LeavesOut;
      StepLeavesOut(w, w', id);
    }
  }

  const OLDER := Row(1, false, "older")
  const NEWER := Row(2, false, "newer")
  const JOB := Job(Tenant("", "", ""), None)

  /** An API call reads a record, which is then edited; a run writes the newer version
      and saves its stamp as the watermark; the call writes the older version. */
  function StaleRun(k: nat): World {
    var sync := Sync(false, Strategy(FullThenIncremental, None), Created, false);
    var older, newer: Source := map[7 := OLDER], map[7 := NEWER];
    var w0 := World(JOB, sync, [], 0, older, 1, map[], multiset{}, Idle);
    var w1 := w0.(apiReads := multiset{Record(7, OLDER)});
    var w2 := w1.(source := newer, clock := 2);
    var w5 := w2.(log := [LogEntry(Full, Running)], pc := Started(sync, Full));
    var w6 := w5.(sync := sync.(state := Live(FullPhase, InProgress, None)), pc := Syncing(sync, Full));
    var w8 := w6.(dest := map[OurKey(JOB, 7) := NEWER], pc := Synced(sync, Full, newer, 2, Some(2)));
    var w9 := w8.(sync := sync.(state := Live(FullPhase, Done, Some(2))), fulls := 1, pc := Saved(sync, Full, newer, 2));
    match k
    case 0 => w0
    case 1 => w1
    case 2 => w2
    case 3 => w2.(pc := GotSync(sync))
    case 4 => w2.(pc := Decided(sync, Full))
    case 5 => w5
    case 6 => w6
    case 7 => w6.(pc := Writing(sync, Full, newer, 2, [Record(7, NEWER)]))
    case 8 => w8
    case 9 => w9
    case 10 => w9.(pc := Cleared(sync, Full, newer, 2))
    case 11 => w9.(log := [LogEntry(Full, Success)], pc := Idle)
    case _ => w9.(log := [LogEntry(Full, Success)], pc := Idle, dest := map[OurKey(JOB, 7) := OLDER], apiReads := multiset{})
  }

  lemma StaleActivities(k: nat)
    requires 2 <= k < 11
    ensures Activity(StaleRun(k), StaleRun(k + 1))
  {
    if k == 7 {
      StaleWrite();
    }
  }

  lemma StaleWrite()
    ensures var stream := [Record(7, NEWER)];
            && IsMax(stream, Some(2)) && IsStream(map[7 := NEWER], None, stream)
            && Written(map[], map[OurKey(JOB, 7) := NEWER], JOB.tenant, None, stream, Deletes(JOB, None))
  {
    var stream := [Record(7, NEWER)];
    assert stream[0] == Record(7, NEWER) && HasId(stream, 7);
    var rows: Table := map[OurKey(JOB, 7) := NEWER];
    assert Copied(map[], rows, JOB.tenant, None, stream);
    assert MarkDeleted(rows, JOB.tenant, None, stream) == rows;
  }

  lemma StaleOthers()
    ensures Others(StaleRun(0), StaleRun(1)) && Others(StaleRun(1), StaleRun(2))
    ensures ApiUpsert(StaleRun(11), StaleRun(12), Record(7, OLDER))
  {
    assert ApiRead(StaleRun(0), StaleRun(1)) by {
      assert 7 in StaleRun(0).source && StaleRun(0).source[7] == OLDER;
      assert multiset{} + multiset{Record(7, OLDER)} == multiset{Record(7, OLDER)};
    }
    assert Environment(StaleRun(1), StaleRun(2));
  }

  lemma StaleStep(k: nat)
    requires k < 12
    ensures Step(StaleRun(k), StaleRun(k + 1))
  {
    hide Activity, StaleRun, Environment, ApiRead, ApiUpsert;
    if 2 <= k < 11 {
      StaleActivities(k);
    } else {
      StaleOthers();
    }
  }

  lemma StaleEnds()
    ensures Start(StaleRun(0))
    ensures var w := StaleRun(12);
            && w.pc.Idle? && Watermark(w.sync.state) == Some(2) && 7 in w.source && w.source[7].lastModified == 2
            && !HasVersion(w.job, w.dest, 7, w.source[7])
  {
  }

  /** A run does get there: the sync has succeeded, its watermark is at the stamp of the
      record, and the destination has the version before. */
  lemma WatermarkCanLie()
    ensures exists run: seq<World>, i: nat ::
              && Run(run) && i < |run| && run[i].pc.Idle? && Watermark(run[i].sync.state) == Some(2)
              && 7 in run[i].source && run[i].source[7].lastModified == 2
              && !HasVersion(run[i].job, run[i].dest, 7, run[i].source[7])
  {
    var run := seq(13, k requires 0 <= k < 13 => StaleRun(k));
    StaleEnds();
    hide Step, Start, StaleRun, HasVersion;
    forall i | 0 < i < |run| ensures Step(run[i - 1], run[i]) {
      StaleStep(i - 1);
    }
    assert Run(run) && run[12] == StaleRun(12);
  }
}
