/** Concurrent submissions: each request uploads an object, races on the insert,
    and cleans up after itself, while every store and database call may fail. */
module Submission {
  import opened Chunking
  import opened Prelude
  import JobTable
  import Naming

  type JobId = string
  type Rid = nat
  type Table = JobTable.Table

  /** The service's Draft; `file` is the key of the uploaded object, if any. */
  datatype Draft = Draft(id: JobId, key: string, hasText: bool, file: Option<string>, size: nat)

  datatype Reply = Accepted(job: JobId) | Rejected

  /** Where a request is in CreateJob, AttachFile, Commit or the deferred
      Discard. */
  datatype Req =
    | Arrived(key: string)
    | Drafting(d: Draft)
    | Uploading(d: Draft, target: string)
    | UploadFailed(d: Draft, target: string)
    | Committing(d: Draft)
    | Duplicate(d: Draft)
    | Resolving(d: Draft)
    | InsertFailed(d: Draft)
    | Leaving(d: Draft, committed: bool, reply: Reply)
    | Ended(key: string, reply: Reply)
  {
    predicate HasDraft() { !Arrived? && !Ended? }

    /** It has no object of its own, or no more. */
    predicate GivenUp() { Leaving? && d.file.None? }
  }

  /** What happened, by draft id: `torn`, whose insert took effect although it
      reported an error; `stored`, whose upload left an object, reported or not;
      `dropped`, whose object was deleted; `landed`, whose failed upload took effect
      after its clean-up; `leaked`, whose object was there after the last attempt to
      delete it, and named by no row. */
  datatype Log = Log(
    torn: set<JobId>, stored: set<JobId>, dropped: set<JobId>, landed: set<JobId>, leaked: map<JobId, string>)

  /** `used` are the draft ids drawn so far. */
  datatype World = World(
    rows: Table,
    objects: map<string, seq<byte>>,
    reqs: map<Rid, Req>,
    used: set<JobId>,
    log: Log)

  const Quiet := Log({}, {}, {}, {}, map[])

  const Empty := World(map[], map[], map[], {}, Quiet)

  /** A cancelled upload can take effect after its clean-up: CleanUpload lets it
      land at once. Until it does, the run in which it never does is the one to
      look at: nobody else sees the object. */
  datatype Action =
    | QueueStep(rows: Table)
    | Arrive(rid: Rid, key: string)
    | Answer(rid: Rid, job: JobId)
    | Refuse(rid: Rid)
    | NewDraft(rid: Rid, id: JobId)
    | SetText(rid: Rid, text: bool)
    | PartError(rid: Rid)
    | StartUpload(rid: Rid, name: string, stamp: string)
    | UploadDone(rid: Rid, content: seq<byte>)
    | UploadError(rid: Rid, partial: Option<seq<byte>>)
    | CleanUpload(rid: Rid, gone: bool, late: Option<seq<byte>>)
    | Commit(rid: Rid)
    | Insert(rid: Rid, createdAt: int)
    | InsertTorn(rid: Rid, createdAt: int)
    | InsertError(rid: Rid)
    | InsertDuplicate(rid: Rid)
    | DropLoser(rid: Rid, gone: bool)
    | Resolve(rid: Rid, found: Option<JobId>)
    | DropFailed(rid: Rid, gone: bool)
    | Discard(rid: Rid, gone: bool)
  {
    predicate Inserts() { Insert? || InsertTorn? }

    /** A step of the service on behalf of a request that has a draft. */
    predicate OnDraft() { !QueueStep? && !Arrive? && !Answer? && !Refuse? && !NewDraft? }
  }

  function KeyOf(d: Draft): string {
    if d.file.Some? then d.file.value else ""
  }

  function NewSubmission(d: Draft, createdAt: int): JobTable.Submission {
    JobTable.Submission(createdAt, d.key, KeyOf(d), d.size)
  }

  predicate HasRow(rows: Table, id: JobId, key: string) {
    id in rows && rows[id].sub.key == key
  }

  predicate InState(w: World, a: Action)
    requires !a.QueueStep?
  {
    a.rid in w.reqs &&
    var r := w.reqs[a.rid];
    match a
    case Answer(_, _) => r.Arrived?
    case Refuse(_) => r.Arrived?
    case NewDraft(_, _) => r.Arrived?
    case SetText(_, _) => r.Drafting?
    case PartError(_) => r.Drafting?
    case StartUpload(_, _, _) => r.Drafting? && r.d.file.None?
    case UploadDone(_, _) => r.Uploading?
    case UploadError(_, _) => r.Uploading?
    case CleanUpload(_, _, _) => r.UploadFailed?
    case Commit(_) => r.Drafting?
    case Insert(_, _) => r.Committing?
    case InsertTorn(_, _) => r.Committing?
    case InsertError(_) => r.Committing?
    case InsertDuplicate(_) => r.Committing?
    case DropLoser(_, _) => r.Duplicate?
    case Resolve(_, _) => r.Resolving?
    case DropFailed(_, _) => r.InsertFailed?
    case Discard(_, _) => r.Leaving?
    case _ => false
  }

  /** Workers change rows but never what the insert fixed. */
  ghost predicate SameSubmissions(rows: Table, rows': Table) {
    rows'.Keys == rows.Keys && forall id :: id in rows ==> rows'[id].sub == rows[id].sub
  }

  ghost predicate Enabled(w: World, a: Action) {
    if a.QueueStep? then SameSubmissions(w.rows, a.rows)
    else if a.Arrive? then a.rid !in w.reqs
    else
      && InState(w, a)
      && match a
         case Answer(rid, job) => w.reqs[rid].key != "" && HasRow(w.rows, job, w.reqs[rid].key)
         case NewDraft(_, id) => id !in w.used && '/' !in id
         case StartUpload(_, _, stamp) => Naming.Digits(stamp)
         case Insert(rid, _) => JobTable.Insertable(w.rows, w.reqs[rid].d.id, w.reqs[rid].d.key)
         case InsertTorn(rid, _) => JobTable.Insertable(w.rows, w.reqs[rid].d.id, w.reqs[rid].d.key)
         case InsertDuplicate(rid) => !JobTable.Insertable(w.rows, w.reqs[rid].d.id, w.reqs[rid].d.key)
         case Resolve(rid, job) => job.Some? ==> HasRow(w.rows, job.value, w.reqs[rid].d.key)
         case _ => true
  }

  /** The request after the step. A second file part, and every other failure
      while parsing, is a PartError. */
  function NextReq(w: World, a: Action): Req
    requires !a.QueueStep? && (a.Arrive? || InState(w, a))
  {
    match a
    case Arrive(_, key) => Arrived(key)
    case Answer(rid, job) => Ended(w.reqs[rid].key, Accepted(job))
    case Refuse(rid) => Ended(w.reqs[rid].key, Rejected)
    case NewDraft(rid, id) => Drafting(Draft(id, w.reqs[rid].key, false, None, 0))
    case SetText(rid, text) => Drafting(w.reqs[rid].d.(hasText := text))
    case PartError(rid) => Leaving(w.reqs[rid].d, false, Rejected)
    case StartUpload(rid, name, stamp) =>
      Uploading(w.reqs[rid].d, Naming.ObjectKey(w.reqs[rid].d.id, Naming.Sanitize(name, stamp)))
    case UploadDone(rid, content) => Drafting(w.reqs[rid].d.(file := Some(w.reqs[rid].target), size := |content|))
    case UploadError(rid, _) => UploadFailed(w.reqs[rid].d, w.reqs[rid].target)
    case CleanUpload(rid, _, _) => Leaving(w.reqs[rid].d, false, Rejected)
    case Commit(rid) =>
      var d := w.reqs[rid].d;
      if !d.hasText && d.file.None? then Leaving(d, false, Rejected) else Committing(d)
    case Insert(rid, _) => Leaving(w.reqs[rid].d, true, Accepted(w.reqs[rid].d.id))
    case InsertTorn(rid, _) => InsertFailed(w.reqs[rid].d)
    case InsertError(rid) => InsertFailed(w.reqs[rid].d)
    case InsertDuplicate(rid) => Duplicate(w.reqs[rid].d)
    case DropLoser(rid, _) => Resolving(w.reqs[rid].d)
    case Resolve(rid, job) =>
      Leaving(w.reqs[rid].d, false, if job.Some? then Accepted(job.value) else Rejected)
    case DropFailed(rid, _) => Leaving(w.reqs[rid].d, false, Rejected)
    case Discard(rid, _) => Ended(w.reqs[rid].d.key, w.reqs[rid].reply)
    case QueueStep(_) => Arrived("")
  }

  function NextRows(w: World, a: Action): Table
    requires a.QueueStep? || a.Arrive? || InState(w, a)
  {
    if a.QueueStep? then a.rows
    else if a.Inserts() then
      var d := w.reqs[a.rid].d;
      w.rows[d.id := JobTable.NewRow(NewSubmission(d, a.createdAt))]
    else w.rows
  }

  /** The object a step deletes, if it deletes one. */
  function Target(w: World, a: Action): Option<string>
    requires !a.QueueStep? && (a.Arrive? || InState(w, a))
  {
    match a
    case CleanUpload(rid, _, _) => Some(w.reqs[rid].target)
    case DropLoser(rid, _) => w.reqs[rid].d.file
    case DropFailed(rid, _) => w.reqs[rid].d.file
    case Discard(rid, _) => if w.reqs[rid].committed then None else w.reqs[rid].d.file
    case _ => None
  }

  predicate Deletes(w: World, a: Action)
  {
    (a.CleanUpload? || a.DropLoser? || a.DropFailed? || a.Discard?) && InState(w, a) && Target(w, a).Some?
  }

  function Undeleted(w: World, a: Action): map<string, seq<byte>>
    requires Deletes(w, a)
  {
    if a.gone then w.objects - {Target(w, a).value} else w.objects
  }

  function NextObjects(w: World, a: Action): map<string, seq<byte>>
    requires a.QueueStep? || a.Arrive? || InState(w, a)
  {
    if Deletes(w, a) then
      if a.CleanUpload? && a.late.Some? then Undeleted(w, a)[Target(w, a).value := a.late.value] else Undeleted(w, a)
    else if a.UploadDone? then w.objects[w.reqs[a.rid].target := a.content]
    else if a.UploadError? && a.partial.Some? then w.objects[w.reqs[a.rid].target := a.partial.value]
    else w.objects
  }

  /** The last deletion a request attempts is CleanUpload or Discard. */
  predicate Leaks(w: World, a: Action) {
    && Deletes(w, a) && (a.CleanUpload? || a.Discard?) && w.reqs[a.rid].HasDraft() && w.reqs[a.rid].d.id !in w.rows
    && Target(w, a).value in NextObjects(w, a)
  }

  function NextLog(w: World, a: Action): Log
    requires a.QueueStep? || a.Arrive? || InState(w, a)
  {
    var own := if !a.QueueStep? && a.rid in w.reqs && w.reqs[a.rid].HasDraft() then {w.reqs[a.rid].d.id} else {};
    var l := w.log;
    Log(
      if a.InsertTorn? then l.torn + own else l.torn,
      if a.UploadDone? || (a.UploadError? && a.partial.Some?) then l.stored + own else l.stored,
      if Deletes(w, a) && a.gone then l.dropped + own else l.dropped,
      if a.CleanUpload? && a.late.Some? then l.landed + own else l.landed,
      if Leaks(w, a) then l.leaked[w.reqs[a.rid].d.id := Target(w, a).value] else l.leaked)
  }

  function Next(w: World, a: Action): World
    requires Enabled(w, a)
  {
    World(
      NextRows(w, a),
      NextObjects(w, a),
      if a.QueueStep? then w.reqs else w.reqs[a.rid := NextReq(w, a)],
      if a.NewDraft? then w.used + {a.id} else w.used,
      NextLog(w, a))
  }

  ghost predicate IsRun(w: World, run: seq<Action>, t: World)
    decreases |run|
  {
    if run == [] then w == t
    else Enabled(w, run[0]) && IsRun(Next(w, run[0]), run[1..], t)
  }

  // ---- the invariant -----------------------------------------------------

  /** The object under `key` is there and has the recorded size. */
  predicate Present(objects: map<string, seq<byte>>, key: string, size: nat) {
    key in objects && |objects[key]| == size
  }

  /** The object a draft or a row names is there unless it was dropped. */
  predicate Kept(w: World, id: JobId, key: string, size: nat) {
    if id in w.log.dropped then key !in w.objects else Present(w.objects, key, size)
  }

  /** A request's draft and its own objects. */
  ghost predicate DraftOk(w: World, r: Req) {
    r.HasDraft() ==>
      && r.d.id in w.used && '/' !in r.d.id
      && (r.d.file.Some? ==> Naming.Under(r.d.id, r.d.file.value) && Kept(w, r.d.id, r.d.file.value, r.d.size))
      && (r.Uploading? || r.UploadFailed? ==> r.d.file.None? && Naming.Under(r.d.id, r.target))
      && (r.Uploading? ==> r.target !in w.objects)
      && (r.Drafting? || r.Uploading? || r.UploadFailed? || r.Committing? ==> r.d.id !in w.log.dropped)
      && (r.d.id in w.log.leaked || r.d.id in w.log.landed ==> r.GivenUp())
      && (!r.GivenUp() ==> (r.d.id in w.log.stored <==> r.d.file.Some? || (r.UploadFailed? && r.target in w.objects)))
  }

  /** A draft's id is in the table once its insert took effect, and then only;
      the row names the draft's object. */
  ghost predicate RowMatches(w: World, r: Req) {
    && (r.HasDraft() && r.d.id in w.rows ==>
          && ((r.Leaving? && r.committed) || (r.d.id in w.log.torn && (r.InsertFailed? || r.Leaving?)))
          && w.rows[r.d.id].sub.objectKey == KeyOf(r.d))
    && (r.Leaving? && r.committed ==> r.d.id in w.rows && r.d.id !in w.log.torn)
  }

  /** An accepted request was told a job that carries its key. */
  ghost predicate ReplyOk(w: World, r: Req) {
    && (r.Leaving? && r.reply.Accepted? ==> HasRow(w.rows, r.reply.job, r.d.key))
    && (r.Ended? && r.reply.Accepted? ==> HasRow(w.rows, r.reply.job, r.key))
  }

  ghost predicate ReqsOk(w: World) {
    forall rid :: rid in w.reqs ==>
      DraftOk(w, w.reqs[rid]) && RowMatches(w, w.reqs[rid]) && ReplyOk(w, w.reqs[rid])
  }

  ghost predicate DraftsDiffer(w: World) {
    forall r, q :: r in w.reqs && q in w.reqs && r != q && w.reqs[r].HasDraft() && w.reqs[q].HasDraft() ==>
      w.reqs[r].d.id != w.reqs[q].d.id
  }

  ghost predicate RowOk(w: World, id: JobId) {
    && id in w.rows && id in w.used && '/' !in id && id !in w.log.leaked
    && (id in w.log.dropped ==> id in w.log.torn)
    && var sub := w.rows[id].sub;
       sub.objectKey != "" ==> Naming.Under(id, sub.objectKey) && Kept(w, id, sub.objectKey, sub.size)
  }

  ghost predicate RowsOk(w: World) {
    forall id :: id in w.rows ==> RowOk(w, id)
  }

  ghost predicate LeakOk(w: World, id: JobId) {
    id in w.log.leaked && id in w.used && '/' !in id && Naming.Under(id, w.log.leaked[id]) && w.log.leaked[id] in w.objects
  }

  /** Some request still answers for the object of this draft. */
  ghost predicate InHand(w: World, id: JobId) {
    exists rid :: rid in w.reqs && w.reqs[rid].HasDraft() && w.reqs[rid].d.id == id && !w.reqs[rid].GivenUp()
  }

  /** What leaked, by what happened: an object nobody answers for that was stored
      and not deleted, or landed after its deletion. */
  ghost predicate LeakExact(w: World, id: JobId) {
    !InHand(w, id) ==>
      (id in w.log.leaked <==> id !in w.rows && ((id in w.log.stored && id !in w.log.dropped) || id in w.log.landed))
  }

  ghost predicate LedgersOk(w: World) {
    && w.log.torn <= w.rows.Keys && w.log.dropped <= w.used && w.log.stored <= w.used && w.log.landed <= w.used
    && JobTable.KeysUnique(w.rows) && "" !in w.objects
    && forall id :: id in w.log.leaked ==> LeakOk(w, id)
  }

  predicate Owns(r: Req, key: string) {
    r.HasDraft() && (r.d.file == Some(key) || ((r.Uploading? || r.UploadFailed?) && r.target == key))
  }

  predicate NamedBy(rows: Table, id: JobId, key: string) {
    id in rows && rows[id].sub.objectKey == key
  }

  predicate LeakedAs(leaked: map<JobId, string>, id: JobId, key: string) {
    id in leaked && leaked[id] == key
  }

  predicate OwnedBy(reqs: map<Rid, Req>, rid: Rid, key: string) {
    rid in reqs && Owns(reqs[rid], key)
  }

  /** An object is named by a row, belongs to a request in progress, or leaked. */
  ghost predicate Accounted(w: World, key: string) {
    || (exists id :: LeakedAs(w.log.leaked, id, key))
    || (exists id :: NamedBy(w.rows, id, key))
    || (exists rid :: OwnedBy(w.reqs, rid, key))
  }

  ghost predicate AllAccounted(w: World) {
    forall key :: key in w.objects ==> Accounted(w, key)
  }

  ghost predicate LeaksExact(w: World) {
    forall id :: id in w.used ==> LeakExact(w, id)
  }

  ghost predicate Inv(w: World) {
    ReqsOk(w) && DraftsDiffer(w) && RowsOk(w) && LedgersOk(w) && AllAccounted(w) && LeaksExact(w)
  }

  // ---- every step keeps it -----------------------------------------------

  /** The object whose content a step changes, if any. */
  function Touched(w: World, a: Action): Option<string>
    requires a.QueueStep? || a.Arrive? || InState(w, a)
  {
    if a.QueueStep? || a.Arrive? then None
    else if Deletes(w, a) then Target(w, a)
    else if a.UploadDone? || a.UploadError? then Some(w.reqs[a.rid].target)
    else None
  }

  /** A request only ever writes or deletes under its own draft's id. */
  lemma TouchedIsOwn(w: World, a: Action)
    requires ReqsOk(w) && Enabled(w, a) && Touched(w, a).Some?
    ensures a.OnDraft() && w.reqs[a.rid].HasDraft() && Naming.Under(w.reqs[a.rid].d.id, Touched(w, a).value)
    ensures Owns(w.reqs[a.rid], Touched(w, a).value)
    ensures w.reqs[a.rid].d.id in w.rows ==> w.reqs[a.rid].d.id in w.log.torn
    ensures w.reqs[a.rid].d.id in w.used && '/' !in w.reqs[a.rid].d.id && w.reqs[a.rid].d.id !in w.log.leaked
  {
    assert DraftOk(w, w.reqs[a.rid]) && RowMatches(w, w.reqs[a.rid]);
  }

  lemma OthersUnchanged(w: World, a: Action)
    requires Enabled(w, a)
    ensures forall k :: Touched(w, a) != Some(k) ==>
      (k in NextObjects(w, a) <==> k in w.objects) && (k in w.objects ==> NextObjects(w, a)[k] == w.objects[k])
  {
  }

  /** A step on behalf of one draft leaves every other draft's objects alone. */
  lemma ForeignObjectsStay(w: World, a: Action, id: JobId, key: string)
    requires ReqsOk(w) && Enabled(w, a) && '/' !in id && Naming.Under(id, key)
    requires a.OnDraft() && w.reqs[a.rid].HasDraft() ==> w.reqs[a.rid].d.id != id
    ensures key in NextObjects(w, a) <==> key in w.objects
    ensures key in w.objects ==> NextObjects(w, a)[key] == w.objects[key]
  {
    hide ReqsOk, Touched, NextObjects;
    OthersUnchanged(w, a);
    if Touched(w, a) == Some(key) {
      TouchedIsOwn(w, a);
      Naming.UnderOneJobOnly(id, w.reqs[a.rid].d.id, key);
    }
  }

  /** The ledgers only ever gain the acting draft's id. */
  lemma LedgersGrow(w: World, a: Action)
    requires ReqsOk(w) && Enabled(w, a)
    ensures var t := Next(w, a);
      && (forall id :: id in t.log.torn && id !in w.log.torn ==> a.OnDraft() && w.reqs[a.rid].HasDraft() && id == w.reqs[a.rid].d.id)
      && (forall id :: id in t.log.dropped && id !in w.log.dropped ==> a.OnDraft() && w.reqs[a.rid].HasDraft() && id == w.reqs[a.rid].d.id)
      && (forall id :: id in t.log.stored && id !in w.log.stored ==> a.OnDraft() && w.reqs[a.rid].HasDraft() && id == w.reqs[a.rid].d.id)
      && (forall id :: id in t.log.landed && id !in w.log.landed ==> a.OnDraft() && w.reqs[a.rid].HasDraft() && id == w.reqs[a.rid].d.id)
      && (forall id :: id in t.log.leaked && id !in w.log.leaked ==> a.OnDraft() && w.reqs[a.rid].HasDraft() && id == w.reqs[a.rid].d.id)
      && w.log.torn <= t.log.torn && w.log.dropped <= t.log.dropped && w.used <= t.used
      && w.log.stored <= t.log.stored && w.log.landed <= t.log.landed
      && (forall id :: id in w.log.leaked ==> id in t.log.leaked && t.log.leaked[id] == w.log.leaked[id])
  {
    hide ReqsOk, NextRows, NextObjects, NextReq;
    if Touched(w, a).Some? {
      TouchedIsOwn(w, a);
    }
  }

  lemma RowsGrow(w: World, a: Action)
    requires Enabled(w, a)
    ensures forall id :: id in w.rows ==> id in NextRows(w, a) && NextRows(w, a)[id].sub == w.rows[id].sub
    ensures a.Inserts() ==> a.rid in w.reqs && w.reqs[a.rid].Committing?
    ensures NextRows(w, a).Keys == w.rows.Keys + if a.Inserts() then {w.reqs[a.rid].d.id} else {}
  {
  }

  lemma OtherDraftOk(w: World, a: Action, q: Rid)
    requires ReqsOk(w) && DraftsDiffer(w) && Enabled(w, a) && q in w.reqs && (a.QueueStep? || q != a.rid)
    ensures DraftOk(Next(w, a), w.reqs[q])
  {
    hide Next;
    var r := w.reqs[q];
    assert DraftOk(w, r);
    if r.HasDraft() {
      LedgersGrow(w, a);
      NextParts(w, a);
      if r.d.file.Some? {
        ForeignObjectsStay(w, a, r.d.id, r.d.file.value);
      }
      if r.Uploading? || r.UploadFailed? {
        ForeignObjectsStay(w, a, r.d.id, r.target);
      }
    }
  }

  /** What Next is made of. */
  lemma NextParts(w: World, a: Action)
    requires Enabled(w, a)
    ensures Next(w, a).rows == NextRows(w, a) && Next(w, a).objects == NextObjects(w, a)
    ensures a.OnDraft() ==> a.rid in w.reqs
    ensures Next(w, a).reqs == if a.QueueStep? then w.reqs else w.reqs[a.rid := NextReq(w, a)]
  {
  }

  ghost predicate NoneUnder(w: World, id: JobId) {
    forall key :: key in w.objects ==> !Naming.Under(id, key)
  }

  /** Before its upload a draft has no object. */
  lemma NothingStoredYet(w: World, rid: Rid)
    requires ReqsOk(w) && DraftsDiffer(w) && RowsOk(w) && LedgersOk(w) && AllAccounted(w)
    requires rid in w.reqs && w.reqs[rid].Drafting? && w.reqs[rid].d.file.None?
    ensures NoneUnder(w, w.reqs[rid].d.id)
  {
    var r := w.reqs[rid];
    assert DraftOk(w, r) && RowMatches(w, r);
    forall key | key in w.objects ensures !Naming.Under(r.d.id, key) {
      if Naming.Under(r.d.id, key) {
        OneHolder(w, r.d.id, key);
      }
    }
  }

  /** An object under a draft's id is named by its row, leaked by it, or its own. */
  lemma OneHolder(w: World, id: JobId, key: string)
    requires ReqsOk(w) && RowsOk(w) && LedgersOk(w) && AllAccounted(w) && key in w.objects && '/' !in id && Naming.Under(id, key)
    ensures id in w.log.leaked || id in w.rows || exists q :: OwnedBy(w.reqs, q, key) && w.reqs[q].d.id == id
  {
    assert Accounted(w, key);
    if j :| LeakedAs(w.log.leaked, j, key) {
      assert LeakOk(w, j);
      Naming.UnderOneJobOnly(id, j, key);
    } else if j :| NamedBy(w.rows, j, key) {
      assert RowOk(w, j);
      Naming.UnderOneJobOnly(id, j, key);
    } else {
      var q :| OwnedBy(w.reqs, q, key);
      assert DraftOk(w, w.reqs[q]);
      Naming.UnderOneJobOnly(id, w.reqs[q].d.id, key);
    }
  }

  lemma OwnDraftOk(w: World, a: Action)
    requires Enabled(w, a) && !a.QueueStep? && (a.Arrive? || (DraftOk(w, w.reqs[a.rid]) && RowMatches(w, w.reqs[a.rid])))
    requires LedgersOk(w) && (a.StartUpload? ==> NoneUnder(w, w.reqs[a.rid].d.id))
    ensures DraftOk(Next(w, a), NextReq(w, a))
  {
    hide Naming.Sanitize, Naming.Under;
    if a.StartUpload? {
      Naming.KeyIsUnder(w.reqs[a.rid].d.id, Naming.Sanitize(a.name, a.stamp));
    }
  }

  lemma OtherRowMatches(w: World, a: Action, q: Rid)
    requires ReqsOk(w) && DraftsDiffer(w) && Enabled(w, a) && q in w.reqs && (a.QueueStep? || q != a.rid)
    ensures RowMatches(Next(w, a), w.reqs[q]) && ReplyOk(Next(w, a), w.reqs[q])
  {
    hide Next, NextRows, DraftOk, InState;
    assert RowMatches(w, w.reqs[q]) && ReplyOk(w, w.reqs[q]);
    RowsGrow(w, a);
    LedgersGrow(w, a);
    NextParts(w, a);
  }

  lemma IdsAreUsed(w: World)
    requires RowsOk(w)
    ensures w.rows.Keys <= w.used
  {
    forall id | id in w.rows ensures id in w.used {
      assert RowOk(w, id);
    }
  }

  lemma OwnRowMatches(w: World, a: Action)
    requires RowsOk(w) && LedgersOk(w) && Enabled(w, a) && !a.QueueStep?
    requires a.Arrive? || (DraftOk(w, w.reqs[a.rid]) && RowMatches(w, w.reqs[a.rid]) && ReplyOk(w, w.reqs[a.rid]))
    ensures RowMatches(Next(w, a), NextReq(w, a)) && ReplyOk(Next(w, a), NextReq(w, a))
  {
    hide Naming.Sanitize, Naming.Under, Naming.ObjectKey, NextObjects, Kept, RowOk;
    if a.NewDraft? {
      IdsAreUsed(w);
    }
  }

  /** A draft's id is drawn fresh, so no two requests work on the same one. */
  lemma StepKeepsReqs(w: World, a: Action)
    requires ReqsOk(w) && DraftsDiffer(w) && RowsOk(w) && LedgersOk(w) && AllAccounted(w) && Enabled(w, a)
    ensures ReqsOk(Next(w, a)) && DraftsDiffer(Next(w, a))
  {
    if a.StartUpload? {
      hide *;
      StartsFromNothing(w, a);
    }
    hide Next, NextReq, DraftOk, RowMatches, ReplyOk, RowsOk, LedgersOk, NoneUnder, AllAccounted;
    NextParts(w, a);
    var t := Next(w, a);
    forall q | q in t.reqs ensures DraftOk(t, t.reqs[q]) && RowMatches(t, t.reqs[q]) && ReplyOk(t, t.reqs[q]) {
      if a.QueueStep? || q != a.rid {
        OtherDraftOk(w, a, q);
        OtherRowMatches(w, a, q);
      } else {
        OwnDraftOk(w, a);
        OwnRowMatches(w, a);
      }
    }
    if !a.QueueStep? {
      OwnDraftIsNew(w, a);
    }
  }

  lemma StartsFromNothing(w: World, a: Action)
    requires ReqsOk(w) && DraftsDiffer(w) && RowsOk(w) && LedgersOk(w) && AllAccounted(w) && Enabled(w, a) && a.StartUpload?
    ensures NoneUnder(w, w.reqs[a.rid].d.id)
  {
    hide ReqsOk, DraftsDiffer, RowsOk, LedgersOk, AllAccounted;
    NothingStoredYet(w, a.rid);
  }

  lemma OwnDraftIsNew(w: World, a: Action)
    requires ReqsOk(w) && Enabled(w, a) && !a.QueueStep?
    ensures NextReq(w, a).HasDraft() ==>
      || (a.rid in w.reqs && w.reqs[a.rid].HasDraft() && NextReq(w, a).d.id == w.reqs[a.rid].d.id)
      || (forall q :: q in w.reqs && w.reqs[q].HasDraft() ==> w.reqs[q].d.id != NextReq(w, a).d.id)
  {
    hide RowMatches, ReplyOk;
    if a.NewDraft? {
      forall q | q in w.reqs && w.reqs[q].HasDraft() ensures w.reqs[q].d.id != a.id {
        assert DraftOk(w, w.reqs[q]);
      }
    }
  }

  lemma OldRowOk(w: World, a: Action, id: JobId)
    requires ReqsOk(w) && RowsOk(w) && Enabled(w, a) && id in w.rows
    ensures RowOk(Next(w, a), id)
  {
    hide ReqsOk, Next, NextRows, NextObjects;
    assert RowOk(w, id);
    RowsGrow(w, a);
    NextParts(w, a);
    LedgersGrow(w, a);
    var key := w.rows[id].sub.objectKey;
    if a.OnDraft() && w.reqs[a.rid].HasDraft() && w.reqs[a.rid].d.id == id {
      OwnRowOk(w, a);
    } else if key != "" {
      ForeignObjectsStay(w, a, id, key);
    }
  }

  /** The row of the acting draft itself. */
  lemma OwnRowOk(w: World, a: Action)
    requires ReqsOk(w) && RowsOk(w) && Enabled(w, a) && a.OnDraft() && w.reqs[a.rid].HasDraft()
    requires w.reqs[a.rid].d.id in w.rows
    ensures RowOk(Next(w, a), w.reqs[a.rid].d.id)
  {
    hide Naming.Sanitize, Naming.Under, Naming.ObjectKey;
    var r := w.reqs[a.rid];
    assert RowOk(w, r.d.id) && DraftOk(w, r) && RowMatches(w, r);
  }

  lemma NewRowOk(w: World, a: Action)
    requires ReqsOk(w) && Enabled(w, a) && a.Inserts()
    ensures RowOk(Next(w, a), w.reqs[a.rid].d.id)
  {
    hide Naming.Sanitize, Naming.Under, Naming.ObjectKey;
    assert DraftOk(w, w.reqs[a.rid]);
  }

  lemma StepKeepsRows(w: World, a: Action)
    requires ReqsOk(w) && RowsOk(w) && LedgersOk(w) && Enabled(w, a)
    ensures RowsOk(Next(w, a)) && LedgersOk(Next(w, a))
  {
    hide Next, ReqsOk, RowOk, NextRows, NextObjects, Touched;
    NextParts(w, a);
    RowsGrow(w, a);
    var t := Next(w, a);
    forall id | id in t.rows ensures RowOk(t, id) {
      if id in w.rows {
        OldRowOk(w, a, id);
      } else {
        NewRowOk(w, a);
      }
    }
    TornAndDropped(w, a);
    NoNamelessObject(w, a);
    KeysStayUnique(w, a);
    forall id | id in t.log.leaked ensures LeakOk(t, id) {
      StepKeepsLeak(w, a, id);
    }
  }

  lemma TornAndDropped(w: World, a: Action)
    requires ReqsOk(w) && LedgersOk(w) && Enabled(w, a)
    ensures Next(w, a).log.torn <= Next(w, a).rows.Keys && Next(w, a).log.dropped <= Next(w, a).used
    ensures Next(w, a).log.stored <= Next(w, a).used && Next(w, a).log.landed <= Next(w, a).used
  {
    hide Naming.Sanitize, Naming.Under, Naming.ObjectKey;
    RowsGrow(w, a);
    if Touched(w, a).Some? {
      TouchedIsOwn(w, a);
      assert DraftOk(w, w.reqs[a.rid]);
    }
  }

  lemma NoNamelessObject(w: World, a: Action)
    requires ReqsOk(w) && Enabled(w, a) && "" !in w.objects
    ensures "" !in Next(w, a).objects
  {
    hide ReqsOk, NextObjects, Next;
    NextParts(w, a);
    OthersUnchanged(w, a);
    if Touched(w, a) == Some("") {
      TouchedIsOwn(w, a);
    }
  }

  lemma KeysStayUnique(w: World, a: Action)
    requires JobTable.KeysUnique(w.rows) && Enabled(w, a)
    ensures JobTable.KeysUnique(Next(w, a).rows)
  {
    hide NextObjects, NextReq, Naming.Digits;
    RowsGrow(w, a);
  }

  lemma StepKeepsLeak(w: World, a: Action, id: JobId)
    requires ReqsOk(w) && LedgersOk(w) && Enabled(w, a) && id in Next(w, a).log.leaked
    ensures LeakOk(Next(w, a), id)
  {
    hide Naming.Sanitize, Naming.Under, Naming.ObjectKey, ReqsOk;
    LedgersGrow(w, a);
    OthersUnchanged(w, a);
    if id in w.log.leaked {
      assert LeakOk(w, id);
      if Touched(w, a) == Some(w.log.leaked[id]) {
        TouchedIsOwn(w, a);
        Naming.UnderOneJobOnly(id, w.reqs[a.rid].d.id, w.log.leaked[id]);
      }
    } else {
      TouchedIsOwn(w, a);
    }
  }

  /** A request gives up its object only in CleanUpload and in Discard. */
  lemma StillOwned(w: World, a: Action, key: string)
    requires Enabled(w, a) && !a.QueueStep? && !a.CleanUpload? && !a.Discard?
    requires OwnedBy(w.reqs, a.rid, key) || Touched(w, a) == Some(key)
    requires a.rid in w.reqs ==> DraftOk(w, w.reqs[a.rid])
    ensures Owns(NextReq(w, a), key)
  {
    hide Naming.Sanitize, Naming.Under, Naming.ObjectKey;
  }

  lemma OwnObjectAccounted(w: World, a: Action, key: string)
    requires ReqsOk(w) && Enabled(w, a) && !a.QueueStep? && key in Next(w, a).objects
    requires OwnedBy(w.reqs, a.rid, key) || Touched(w, a) == Some(key)
    ensures Accounted(Next(w, a), key)
  {
    hide Naming.Sanitize, Naming.Under, Naming.ObjectKey;
    var t := Next(w, a);
    assert a.rid in w.reqs ==> DraftOk(w, w.reqs[a.rid]) && RowMatches(w, w.reqs[a.rid]);
    if a.CleanUpload? || a.Discard? {
      var id := w.reqs[a.rid].d.id;
      if id in w.rows {
        assert NamedBy(t.rows, id, key);
      } else {
        assert Leaks(w, a);
        assert LeakedAs(t.log.leaked, id, key);
      }
    } else {
      StillOwned(w, a, key);
      assert OwnedBy(t.reqs, a.rid, key);
    }
  }

  lemma StepKeepsAccounted(w: World, a: Action, key: string)
    requires ReqsOk(w) && Enabled(w, a) && key in Next(w, a).objects
    requires key in w.objects ==> Accounted(w, key)
    ensures Accounted(Next(w, a), key)
  {
    hide Next, NextRows, NextObjects, NextReq, ReqsOk;
    NextParts(w, a);
    LedgersGrow(w, a);
    RowsGrow(w, a);
    OthersUnchanged(w, a);
    var t := Next(w, a);
    if id :| LeakedAs(w.log.leaked, id, key) {
      assert LeakedAs(t.log.leaked, id, key);
    } else if id :| NamedBy(w.rows, id, key) {
      assert NamedBy(t.rows, id, key);
    } else if rid :| OwnedBy(w.reqs, rid, key) {
      if a.QueueStep? || rid != a.rid {
        assert OwnedBy(t.reqs, rid, key);
      } else {
        OwnObjectAccounted(w, a, key);
      }
    } else {
      OwnObjectAccounted(w, a, key);
    }
  }

  // ---- what leaks --------------------------------------------------------

  /** A draft that is not the acting one. */
  lemma OthersLeakExact(w: World, a: Action, id: JobId)
    requires ReqsOk(w) && Enabled(w, a) && LeakExact(w, id)
    requires a.OnDraft() && w.reqs[a.rid].HasDraft() ==> w.reqs[a.rid].d.id != id
    requires !a.NewDraft? || a.id != id
    ensures LeakExact(Next(w, a), id)
  {
    LedgersGrow(w, a);
    RowsGrow(w, a);
    NextParts(w, a);
    hide ReqsOk, Enabled, Next, NextRows, NextObjects;
    var t := Next(w, a);
    if rid :| rid in w.reqs && w.reqs[rid].HasDraft() && w.reqs[rid].d.id == id && !w.reqs[rid].GivenUp() {
      assert rid in t.reqs && t.reqs[rid] == w.reqs[rid];
    }
  }

  /** The acting draft, when its request gives its object up or has done so. */
  lemma OwnLeakExact(w: World, a: Action)
    requires Enabled(w, a) && a.OnDraft() && w.reqs[a.rid].HasDraft()
    requires DraftOk(w, w.reqs[a.rid]) && RowMatches(w, w.reqs[a.rid])
    requires w.reqs[a.rid].GivenUp() ==>
      var id := w.reqs[a.rid].d.id;
      id in w.log.leaked <==> id !in w.rows && ((id in w.log.stored && id !in w.log.dropped) || id in w.log.landed)
    ensures var r, t, id := NextReq(w, a), Next(w, a), w.reqs[a.rid].d.id;
      (r.HasDraft() && !r.GivenUp()) ||
      (id in t.log.leaked <==> id !in t.rows && ((id in t.log.stored && id !in t.log.dropped) || id in t.log.landed))
  {
    hide Naming.Sanitize, Naming.Under, Naming.ObjectKey, JobTable.Insertable, Naming.Digits;
  }

  lemma StepKeepsLeakExact(w: World, a: Action, id: JobId)
    requires ReqsOk(w) && DraftsDiffer(w) && Enabled(w, a)
    requires id in w.used ==> LeakExact(w, id)
    requires id in Next(w, a).used
    ensures LeakExact(Next(w, a), id)
  {
    var t := Next(w, a);
    NextParts(w, a);
    if a.OnDraft() && w.reqs[a.rid].HasDraft() && w.reqs[a.rid].d.id == id {
      var r := w.reqs[a.rid];
      assert DraftOk(w, r) && RowMatches(w, r);
      if r.GivenUp() {
        OnlyOneInHand(w, a.rid);
      }
      OwnLeakExact(w, a);
      hide Next, NextReq, DraftOk, RowMatches, ReqsOk;
      assert a.rid in t.reqs && t.reqs[a.rid] == NextReq(w, a);
      if NextReq(w, a).HasDraft() {
        SameDraft(w, a);
      }
    } else if a.NewDraft? && a.id == id {
      assert a.rid in t.reqs && t.reqs[a.rid].HasDraft() && t.reqs[a.rid].d.id == id && !t.reqs[a.rid].GivenUp();
    } else {
      OthersLeakExact(w, a, id);
    }
  }

  lemma SameDraft(w: World, a: Action)
    requires Enabled(w, a) && a.OnDraft() && NextReq(w, a).HasDraft()
    ensures w.reqs[a.rid].HasDraft() && NextReq(w, a).d.id == w.reqs[a.rid].d.id
  {
  }

  lemma OnlyOneInHand(w: World, rid: Rid)
    requires DraftsDiffer(w) && rid in w.reqs && w.reqs[rid].HasDraft() && w.reqs[rid].GivenUp()
    ensures !InHand(w, w.reqs[rid].d.id)
  {
  }
}
