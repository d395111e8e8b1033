/** What every run of concurrent submissions guarantees: agreement of the object
    store with the jobs table, one job per idempotency key, and exactly which
    failures break the agreement. */
module SubmissionResults {
  import opened Chunking
  import opened Prelude
  import opened Submission
  import JobRuns
  import JobTable
  import Naming

  lemma StepKeepsInv(w: World, a: Action)
    requires Inv(w) && Enabled(w, a)
    ensures Inv(Next(w, a))
  {
    hide ReqsOk, DraftsDiffer, RowsOk, LedgersOk, Accounted, LeakExact, Next, Enabled;
    StepKeepsReqs(w, a);
    StepKeepsRows(w, a);
    forall key | key in Next(w, a).objects ensures Accounted(Next(w, a), key) {
      StepKeepsAccounted(w, a, key);
    }
    forall id | id in Next(w, a).used ensures LeakExact(Next(w, a), id) {
      StepKeepsLeakExact(w, a, id);
    }
  }

  lemma {:induction false} RunKeepsInv(w: World, run: seq<Action>, t: World)
    requires Inv(w) && IsRun(w, run, t)
    ensures Inv(t)
    decreases |run|
  {
    hide Inv, Next, Enabled;
    if run != [] {
      StepKeepsInv(w, run[0]);
      RunKeepsInv(Next(w, run[0]), run[1..], t);
    }
  }

  ghost predicate Reachable(w: World) {
    exists run :: IsRun(Empty, run, w)
  }

  lemma ReachableInv(w: World)
    requires Reachable(w)
    ensures Inv(w)
  {
    var run :| IsRun(Empty, run, w);
    RunKeepsInv(Empty, run, w);
  }

  // ---- the two stores agree ----------------------------------------------

  /** The object a job names is stored, at its recorded size, unless the job's
      insert was torn and the object then deleted; and only then is it missing. */
  lemma RowsNameTheirObjects(w: World, id: JobId)
    requires Reachable(w) && id in w.rows && w.rows[id].sub.objectKey != ""
    ensures Present(w.objects, w.rows[id].sub.objectKey, w.rows[id].sub.size) <==> !(id in w.log.torn && id in w.log.dropped)
    ensures w.rows[id].sub.objectKey in w.objects <==> !(id in w.log.torn && id in w.log.dropped)
  {
    ReachableInv(w);
    assert RowOk(w, id);
  }

  /** The step deletes the object of draft `id`, and succeeds. */
  ghost predicate DeletesObject(w: World, a: Action, id: JobId) {
    Deletes(w, a) && a.gone && w.reqs[a.rid].HasDraft() && w.reqs[a.rid].d.id == id
  }

  /** The insert of draft `id` takes effect although it reports an error. */
  ghost predicate TearsInsert(w: World, a: Action, id: JobId) {
    a.InsertTorn? && a.rid in w.reqs && w.reqs[a.rid].HasDraft() && w.reqs[a.rid].d.id == id
  }

  ghost predicate DeletedIn(w: World, run: seq<Action>, id: JobId)
    decreases |run|
  {
    run != [] && Enabled(w, run[0]) && (DeletesObject(w, run[0], id) || DeletedIn(Next(w, run[0]), run[1..], id))
  }

  ghost predicate TornIn(w: World, run: seq<Action>, id: JobId)
    decreases |run|
  {
    run != [] && Enabled(w, run[0]) && (TearsInsert(w, run[0], id) || TornIn(Next(w, run[0]), run[1..], id))
  }

  /** An upload for draft `id` leaves an object, whether it reports so or not. */
  ghost predicate StoresObject(w: World, a: Action, id: JobId) {
    && (a.UploadDone? || (a.UploadError? && a.partial.Some?))
    && a.rid in w.reqs && w.reqs[a.rid].HasDraft() && w.reqs[a.rid].d.id == id
  }

  /** A failed upload for draft `id` takes effect after its clean-up. */
  ghost predicate LandsLate(w: World, a: Action, id: JobId) {
    a.CleanUpload? && a.late.Some? && a.rid in w.reqs && w.reqs[a.rid].HasDraft() && w.reqs[a.rid].d.id == id
  }

  ghost predicate StoredIn(w: World, run: seq<Action>, id: JobId)
    decreases |run|
  {
    run != [] && Enabled(w, run[0]) && (StoresObject(w, run[0], id) || StoredIn(Next(w, run[0]), run[1..], id))
  }

  ghost predicate LandedIn(w: World, run: seq<Action>, id: JobId)
    decreases |run|
  {
    run != [] && Enabled(w, run[0]) && (LandsLate(w, run[0], id) || LandedIn(Next(w, run[0]), run[1..], id))
  }

  lemma StepRecords(w: World, a: Action, id: JobId)
    requires ReqsOk(w) && Enabled(w, a)
    ensures id in Next(w, a).log.dropped <==> id in w.log.dropped || DeletesObject(w, a, id)
    ensures id in Next(w, a).log.torn <==> id in w.log.torn || TearsInsert(w, a, id)
    ensures id in Next(w, a).log.stored <==> id in w.log.stored || StoresObject(w, a, id)
    ensures id in Next(w, a).log.landed <==> id in w.log.landed || LandsLate(w, a, id)
  {
    hide ReqsOk, NextRows, NextObjects, NextReq, Leaks;
    if Touched(w, a).Some? {
      TouchedIsOwn(w, a);
    }
  }

  lemma {:induction false} LedgersRecordTheRun(w: World, run: seq<Action>, t: World, id: JobId)
    requires Inv(w) && IsRun(w, run, t)
    ensures id in t.log.dropped <==> id in w.log.dropped || DeletedIn(w, run, id)
    ensures id in t.log.torn <==> id in w.log.torn || TornIn(w, run, id)
    ensures id in t.log.stored <==> id in w.log.stored || StoredIn(w, run, id)
    ensures id in t.log.landed <==> id in w.log.landed || LandedIn(w, run, id)
    decreases |run|
  {
    hide ReqsOk, RowsOk, LedgersOk, DraftsDiffer, AllAccounted, LeaksExact, Next, Enabled, DeletesObject, TearsInsert, StoresObject, LandsLate;
    if run != [] {
      StepRecords(w, run[0], id);
      StepKeepsInv(w, run[0]);
      LedgersRecordTheRun(Next(w, run[0]), run[1..], t, id);
    }
  }

  /** By the branch that fails: a job whose insert reported no error has its object
      for good; one whose insert was torn has it exactly as long as no deletion by
      its request, in Commit or in Discard, has succeeded. */
  lemma TornJobsKeepUndeletedObjects(run: seq<Action>, w: World, id: JobId)
    requires IsRun(Empty, run, w) && id in w.rows && w.rows[id].sub.objectKey != ""
    ensures !TornIn(Empty, run, id) ==> Present(w.objects, w.rows[id].sub.objectKey, w.rows[id].sub.size)
    ensures TornIn(Empty, run, id) ==>
      (Present(w.objects, w.rows[id].sub.objectKey, w.rows[id].sub.size) <==> !DeletedIn(Empty, run, id))
  {
    assert Reachable(w);
    hide IsRun, Inv;
    EmptyHasInv();
    LedgersRecordTheRun(Empty, run, w, id);
    RowsNameTheirObjects(w, id);
  }

  lemma EmptyHasInv()
    ensures Inv(Empty)
  {
  }

  function NamedKeys(rows: Table): set<string> {
    set id | id in rows && rows[id].sub.objectKey != "" :: rows[id].sub.objectKey
  }

  predicate AtRest(w: World) {
    forall rid :: rid in w.reqs ==> w.reqs[rid].Ended?
  }

  predicate Lost(w: World, id: JobId) {
    id in w.rows && id in w.log.dropped && w.rows[id].sub.objectKey != ""
  }

  /** Once all requests have ended, the stored objects are exactly those the jobs
      name if and only if no last deletion failed and no torn insert lost its
      object. */
  lemma StoresAgreeAtRest(w: World)
    requires Reachable(w) && AtRest(w)
    ensures w.objects.Keys == NamedKeys(w.rows) <==> w.log.leaked == map[] && forall id :: !Lost(w, id)
  {
    hide ReqsOk, DraftsDiffer, AllAccounted, AtRest;
    ReachableInv(w);
    if w.log.leaked == map[] && forall id :: !Lost(w, id) {
      forall key | key in w.objects ensures key in NamedKeys(w.rows) {
        AtRestNamed(w, key);
      }
      forall key | key in NamedKeys(w.rows) ensures key in w.objects {
        var id :| id in w.rows && w.rows[id].sub.objectKey == key != "";
        assert RowOk(w, id) && !Lost(w, id);
      }
    } else if id :| Lost(w, id) {
      assert RowOk(w, id);
      assert w.rows[id].sub.objectKey in NamedKeys(w.rows);
    } else {
      var id :| id in w.log.leaked;
      LeakIsUnnamed(w, id);
    }
  }

  /** In the run something was stored for this draft and not deleted, or landed when
      it had been. */
  ghost predicate LeftBehind(run: seq<Action>, id: JobId) {
    (StoredIn(Empty, run, id) && !DeletedIn(Empty, run, id)) || LandedIn(Empty, run, id)
  }

  /** The leaked objects at rest, by what happened: those left behind for drafts that
      never got a row. */
  lemma LeaksAreLeftBehind(run: seq<Action>, w: World, id: JobId)
    requires IsRun(Empty, run, w) && AtRest(w)
    ensures id in w.log.leaked <==> id !in w.rows && LeftBehind(run, id)
  {
    assert Reachable(w);
    hide IsRun;
    EmptyHasInv();
    ReachableInv(w);
    LedgersRecordTheRun(Empty, run, w, id);
    hide ReqsOk, DraftsDiffer, RowsOk, AllAccounted;
    assert !InHand(w, id);
    LeaksAreUsed(w);
    if id in w.used {
      assert LeakExact(w, id);
    }
  }

  lemma LeaksAreUsed(w: World)
    requires LedgersOk(w)
    ensures w.log.leaked.Keys <= w.used
  {
    forall id | id in w.log.leaked ensures id in w.used {
      assert LeakOk(w, id);
    }
  }

  /** So the stores agree at rest exactly when every object ever stored, whether its
      upload reported it or not, belongs to a job or was deleted for good, and no
      object of a job whose insert was torn was deleted. */
  lemma StoresAgreeUnlessLeftBehind(run: seq<Action>, w: World)
    requires IsRun(Empty, run, w) && AtRest(w)
    ensures w.objects.Keys == NamedKeys(w.rows) <==>
      && (forall id :: LeftBehind(run, id) ==> id in w.rows)
      && (forall id :: id in w.rows && w.rows[id].sub.objectKey != "" && TornIn(Empty, run, id) ==> !DeletedIn(Empty, run, id))
  {
    assert Reachable(w);
    hide IsRun, LeftBehind, Inv, NamedKeys, AtRest;
    EmptyHasInv();
    StoresAgreeAtRest(w);
    forall id ensures id in w.log.leaked <==> id !in w.rows && LeftBehind(run, id) {
      LeaksAreLeftBehind(run, w, id);
    }
    forall id ensures Lost(w, id) <==>
      id in w.rows && w.rows[id].sub.objectKey != "" && TornIn(Empty, run, id) && DeletedIn(Empty, run, id)
    {
      LedgersRecordTheRun(Empty, run, w, id);
      OnlyTornJobsLose(w);
    }
  }

  lemma OnlyTornJobsLose(w: World)
    requires Reachable(w)
    ensures forall id :: Lost(w, id) ==> id in w.log.torn
  {
    ReachableInv(w);
    forall id | Lost(w, id) ensures id in w.log.torn {
      assert RowOk(w, id);
    }
  }

  lemma AtRestNamed(w: World, key: string)
    requires Inv(w) && AtRest(w) && key in w.objects && w.log.leaked == map[]
    ensures key in NamedKeys(w.rows)
  {
    hide ReqsOk, DraftsDiffer, RowsOk;
    assert Accounted(w, key);
    var id :| NamedBy(w.rows, id, key);
  }

  lemma LeakIsUnnamed(w: World, id: JobId)
    requires Inv(w) && id in w.log.leaked
    ensures w.log.leaked[id] in w.objects && w.log.leaked[id] !in NamedKeys(w.rows)
  {
    assert LeakOk(w, id);
    if job :| job in w.rows && w.rows[job].sub.objectKey == w.log.leaked[id] {
      assert RowOk(w, job);
      Naming.UnderNotEmpty(id, w.log.leaked[id]);
      Naming.UnderOneJobOnly(id, job, w.log.leaked[id]);
    }
  }

  // ---- one job per key ---------------------------------------------------

  /** Two jobs never share an idempotency key. */
  lemma OneJobPerKey(w: World, i: JobId, j: JobId, key: string)
    requires Reachable(w) && key != "" && HasRow(w.rows, i, key) && HasRow(w.rows, j, key)
    ensures i == j
  {
    ReachableInv(w);
  }

  /** All accepted requests with the same key were told the same job, and that job
      is in the table with their key. */
  lemma RepliesAgree(w: World, r: Rid, q: Rid)
    requires Reachable(w) && r in w.reqs && q in w.reqs
    requires w.reqs[r].Ended? && w.reqs[r].reply.Accepted? && w.reqs[q].Ended? && w.reqs[q].reply.Accepted?
    requires w.reqs[r].key == w.reqs[q].key != ""
    ensures w.reqs[r].reply == w.reqs[q].reply && HasRow(w.rows, w.reqs[r].reply.job, w.reqs[r].key)
  {
    ReachableInv(w);
    assert ReplyOk(w, w.reqs[r]) && ReplyOk(w, w.reqs[q]);
    OneJobPerKey(w, w.reqs[r].reply.job, w.reqs[q].reply.job, w.reqs[r].key);
  }

  // ---- a committed object is never touched again -------------------------

  predicate Stored(w: World, id: JobId, key: string, content: seq<byte>) {
    id in w.rows && id !in w.log.torn && w.rows[id].sub.objectKey == key && key in w.objects && w.objects[key] == content
  }

  /** In particular a loser's deletions, in Commit and again in Discard, never
      touch the winner's object. */
  lemma CommittedObjectsAreSafe(w: World, a: Action, id: JobId, key: string, content: seq<byte>)
    requires Inv(w) && Enabled(w, a) && Stored(w, id, key, content)
    ensures Stored(Next(w, a), id, key, content)
  {
    hide ReqsOk, DraftsDiffer, AllAccounted, Next, NextObjects, NextRows;
    assert RowOk(w, id);
    NextParts(w, a);
    RowsGrow(w, a);
    LedgersGrow(w, a);
    OthersUnchanged(w, a);
    NotTornLater(w, a, id);
    if Touched(w, a) == Some(key) {
      TouchedIsOwn(w, a);
      Naming.UnderOneJobOnly(id, w.reqs[a.rid].d.id, key);
    }
  }

  lemma NotTornLater(w: World, a: Action, id: JobId)
    requires Enabled(w, a) && id in w.rows && id !in w.log.torn
    ensures id !in Next(w, a).log.torn
  {
  }

  /** However the run goes on, the bytes stored for a job whose insert succeeded
      stay the same, under the same key. */
  lemma {:induction false} CommittedObjectsLast(w: World, run: seq<Action>, t: World, id: JobId, key: string, content: seq<byte>)
    requires Inv(w) && IsRun(w, run, t) && Stored(w, id, key, content)
    ensures Stored(t, id, key, content)
    decreases |run|
  {
    hide Inv, Next, Enabled, Stored;
    if run != [] {
      StepKeepsInv(w, run[0]);
      CommittedObjectsAreSafe(w, run[0], id, key, content);
      CommittedObjectsLast(Next(w, run[0]), run[1..], t, id, key, content);
    }
  }

  /** The queue's own statements, run by any worker, are such steps. */
  lemma QueueStepsAreAllowed(p: JobRuns.Params, q: JobRuns.World, a: JobRuns.Action, w: World)
    requires q.rows == w.rows && !a.Insert?
    ensures Enabled(w, QueueStep(JobRuns.NextRows(p, q, a)))
  {
    JobRuns.RowsKeepTheirSubmission(p, q, a);
  }

  /** And an insert of either protocol is the same insert. */
  lemma InsertsAgree(p: JobRuns.Params, q: JobRuns.World, w: World, rid: Rid, createdAt: int)
    requires q.rows == w.rows && Enabled(w, Insert(rid, createdAt))
    ensures var a := JobRuns.Insert(w.reqs[rid].d.id, NewSubmission(w.reqs[rid].d, createdAt));
      JobRuns.Enabled(p, q, a) && JobRuns.NextRows(p, q, a) == Next(w, Insert(rid, createdAt)).rows
  {
  }

  // ---- the failure the source does not guard against ---------------------

  lemma {:induction false} RunSnoc(w: World, run: seq<Action>, t: World, a: Action)
    requires IsRun(w, run, t) && Enabled(t, a)
    ensures IsRun(w, run + [a], Next(t, a))
    decreases |run|
  {
    hide Next, Enabled;
    if run == [] {
      assert run + [a] == [a];
      assert [a][1..] == [];
    } else {
      RunSnoc(Next(w, run[0]), run[1..], t, a);
      assert (run + [a])[1..] == run[1..] + [a];
    }
  }

  lemma Extend(w: World, a: Action) returns (t: World)
    requires Reachable(w) && Enabled(w, a)
    ensures Reachable(t) && t == Next(w, a)
  {
    hide Next, Enabled, IsRun;
    var run :| IsRun(Empty, run, w);
    t := Next(w, a);
    RunSnoc(Empty, run, w, a);
  }

  /** A request alone, with its draft drawn. */
  lemma LoneDraft() returns (w: World)
    ensures Reachable(w)
    ensures w == World(map[], map[], map[0 := Drafting(Draft("a", "", false, None, 0))], {"a"}, Quiet)
  {
    hide IsRun, Naming.Digits, Target;
    StartsReachable();
    w := Extend(Empty, Arrive(0, ""));
    w := Extend(w, NewDraft(0, "a"));
  }

  /** And with its file stored. */
  lemma LoneUpload(name: string, stamp: string) returns (w: World, d: Draft)
    requires Naming.Digits(stamp)
    ensures Reachable(w) && d.file.Some? && d.file.value != "" && d.id == "a"
    ensures w == World(map[], map[d.file.value := []], map[0 := Drafting(d)], {"a"}, Quiet.(stored := {"a"}))
  {
    hide Naming.Sanitize, Naming.Under, Naming.ObjectKey, IsRun;
    var key := Naming.ObjectKey("a", Naming.Sanitize(name, stamp));
    Naming.KeyIsUnder("a", Naming.Sanitize(name, stamp));
    d := Draft("a", "", false, None, 0);
    w := LoneDraft();
    w := Extend(w, StartUpload(0, name, stamp));
    assert w == World(map[], map[], map[0 := Uploading(d, key)], {"a"}, Quiet);
    w := Extend(w, UploadDone(0, []));
    d := d.(file := Some(key));
  }

  lemma StartsReachable()
    ensures Reachable(Empty)
  {
    assert IsRun(Empty, [], Empty);
  }

  /** When the insert takes effect but its reply is lost, Commit deletes the object
      of a job that is now in the queue: any file name will do. */
  lemma TornInsertLosesTheObject(name: string, stamp: string) returns (w: World)
    requires Naming.Digits(stamp)
    ensures Reachable(w) && AtRest(w) && w.log.leaked == map[] && w.objects == map[]
    ensures exists id :: Lost(w, id)
  {
    hide IsRun;
    var d: Draft;
    w, d := LoneUpload(name, stamp);
    var rows := map["a" := JobTable.NewRow(NewSubmission(d, 0))];
    w := Extend(w, Commit(0));
    w := Extend(w, InsertTorn(0, 0));
    assert w == World(rows, map[d.file.value := []], map[0 := InsertFailed(d)], {"a"}, Log({"a"}, {"a"}, {}, {}, map[]));
    w := Extend(w, DropFailed(0, true));
    assert w == World(rows, map[], map[0 := Leaving(d, false, Rejected)], {"a"}, Log({"a"}, {"a"}, {"a"}, {}, map[]));
    w := Extend(w, Discard(0, true));
    assert Lost(w, "a");
  }
}
