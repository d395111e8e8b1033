/** The request handler and the draft it works on, as sequential code over the
    object store and the jobs table. Each method follows the steps of Submission,
    whose results then hold of it. */
module Service {
  import opened Chunking
  import opened Prelude
  import opened JobTable
  import Naming
  import SubmissionResults
  import S = Submission

  type Rid = S.Rid

  /** How the object store answers a Put: an error may leave something behind. */
  datatype PutOutcome = Stored(content: seq<byte>) | Broken(partial: Option<seq<byte>>)

  /** How the database answers an insert: it may also lose its own reply. */
  datatype InsertOutcome = Heard | Unheard | Refused

  datatype Part =
    | TextPart(nonEmpty: bool, readable: bool)
    | FilePart(name: string, stamp: string, accepted: bool, put: PutOutcome, cleaned: bool)
    | UnknownPart
    | BrokenPart

  // ---- segments of a request, as runs of the protocol --------------------

  ghost predicate Reaches(w: S.World, t: S.World) {
    exists run :: S.IsRun(w, run, t)
  }

  lemma Stay(w: S.World)
    ensures Reaches(w, w)
  {
    assert S.IsRun(w, [], w);
  }

  lemma Step(w: S.World, a: S.Action)
    requires S.Enabled(w, a)
    ensures Reaches(w, S.Next(w, a))
  {
    hide S.Next, S.Enabled;
    assert [a][1..] == [];
    assert S.IsRun(w, [a], S.Next(w, a));
  }

  lemma {:induction false} RunsCompose(w: S.World, first: seq<S.Action>, m: S.World, second: seq<S.Action>, t: S.World)
    requires S.IsRun(w, first, m) && S.IsRun(m, second, t)
    ensures S.IsRun(w, first + second, t)
    decreases |first|
  {
    hide S.Next, S.Enabled;
    if first == [] {
      assert first + second == second;
    } else {
      assert (first + second)[1..] == first[1..] + second;
      RunsCompose(S.Next(w, first[0]), first[1..], m, second, t);
    }
  }

  lemma Compose(w: S.World, m: S.World, t: S.World)
    requires Reaches(w, m) && Reaches(m, t)
    ensures Reaches(w, t)
  {
    hide S.IsRun;
    var first :| S.IsRun(w, first, m);
    var second :| S.IsRun(m, second, t);
    RunsCompose(w, first, m, second, t);
  }

  /** One step on behalf of `rid`, appended to what happened so far. */
  lemma Advance(w: S.World, m: S.World, a: S.Action) returns (t: S.World)
    requires Reaches(w, m) && S.Enabled(m, a)
    ensures Reaches(w, t) && t == S.Next(m, a)
  {
    hide *;
    t := S.Next(m, a);
    Step(m, a);
    Compose(w, m, t);
  }

  /** The protocol has moved from w to t by steps of request `rid`, which is now
      at `r`. */
  ghost predicate Moved(w: S.World, t: S.World, rid: Rid, r: S.Req) {
    Reaches(w, t) && t.reqs == w.reqs[rid := r]
  }

  predicate IsAt(w: S.World, rid: Rid, r: S.Req) {
    rid in w.reqs && w.reqs[rid] == r
  }

  function Without(objects: map<string, seq<byte>>, file: Option<string>, gone: bool): map<string, seq<byte>> {
    if file.Some? && gone then objects - {file.value} else objects
  }

  function Partly(objects: map<string, seq<byte>>, key: string, partial: Option<seq<byte>>): map<string, seq<byte>> {
    if partial.Some? then objects[key := partial.value] else objects
  }

  lemma Uploads(w: S.World, rid: Rid, d: S.Draft, name: string, stamp: string, content: seq<byte>) returns (t: S.World)
    requires IsAt(w, rid, S.Drafting(d)) && d.file.None? && Naming.Digits(stamp)
    ensures
      var key := Naming.ObjectKey(d.id, Naming.Sanitize(name, stamp));
      && Moved(w, t, rid, S.Drafting(d.(file := Some(key), size := |content|)))
      && t.rows == w.rows && t.objects == w.objects[key := content]
  {
    hide Naming.Sanitize, Naming.ObjectKey, S.IsRun, Reaches;
    Stay(w);
    t := Advance(w, w, S.StartUpload(rid, name, stamp));
    t := Advance(w, t, S.UploadDone(rid, content));
  }

  lemma UploadFails(w: S.World, rid: Rid, d: S.Draft, name: string, stamp: string, partial: Option<seq<byte>>, gone: bool)
    returns (t: S.World)
    requires IsAt(w, rid, S.Drafting(d)) && d.file.None? && Naming.Digits(stamp)
    ensures
      var key := Naming.ObjectKey(d.id, Naming.Sanitize(name, stamp));
      && Moved(w, t, rid, S.Leaving(d, false, S.Rejected))
      && t.rows == w.rows && t.objects == Without(Partly(w.objects, key, partial), Some(key), gone)
  {
    hide Naming.Sanitize, Naming.ObjectKey, S.IsRun, Reaches;
    Stay(w);
    t := Advance(w, w, S.StartUpload(rid, name, stamp));
    t := Advance(w, t, S.UploadError(rid, partial));
    t := Advance(w, t, S.CleanUpload(rid, gone, None));
  }

  lemma Inserts(w: S.World, rid: Rid, d: S.Draft, createdAt: Time) returns (t: S.World)
    requires IsAt(w, rid, S.Drafting(d)) && (d.hasText || d.file.Some?) && Insertable(w.rows, d.id, d.key)
    ensures Moved(w, t, rid, S.Leaving(d, true, S.Accepted(d.id)))
    ensures t.rows == w.rows[d.id := NewRow(S.NewSubmission(d, createdAt))] && t.objects == w.objects
  {
    hide S.IsRun, Reaches, Insertable;
    Stay(w);
    t := Advance(w, w, S.Commit(rid));
    t := Advance(w, t, S.Insert(rid, createdAt));
  }

  lemma InsertFails(w: S.World, rid: Rid, d: S.Draft, createdAt: Time, torn: bool, gone: bool) returns (t: S.World)
    requires IsAt(w, rid, S.Drafting(d)) && (d.hasText || d.file.Some?) && (torn ==> Insertable(w.rows, d.id, d.key))
    ensures Moved(w, t, rid, S.Leaving(d, false, S.Rejected))
    ensures t.rows == (if torn then w.rows[d.id := NewRow(S.NewSubmission(d, createdAt))] else w.rows)
    ensures t.objects == Without(w.objects, d.file, gone)
  {
    hide S.IsRun, Reaches, Insertable;
    Stay(w);
    t := Advance(w, w, S.Commit(rid));
    t := Advance(w, t, if torn then S.InsertTorn(rid, createdAt) else S.InsertError(rid));
    t := Advance(w, t, S.DropFailed(rid, gone));
  }

  lemma LosesInsert(w: S.World, rid: Rid, d: S.Draft, gone: bool) returns (t: S.World)
    requires IsAt(w, rid, S.Drafting(d)) && (d.hasText || d.file.Some?) && !Insertable(w.rows, d.id, d.key)
    ensures Moved(w, t, rid, S.Resolving(d))
    ensures t.rows == w.rows && t.objects == Without(w.objects, d.file, gone)
  {
    hide S.IsRun, Reaches, Insertable;
    Stay(w);
    t := Advance(w, w, S.Commit(rid));
    t := Advance(w, t, S.InsertDuplicate(rid));
    t := Advance(w, t, S.DropLoser(rid, gone));
  }

  lemma Resolves(w: S.World, rid: Rid, d: S.Draft, found: Option<JobId>) returns (t: S.World)
    requires IsAt(w, rid, S.Resolving(d)) && (found.Some? ==> S.HasRow(w.rows, found.value, d.key))
    ensures Moved(w, t, rid, S.Leaving(d, false, if found.Some? then S.Accepted(found.value) else S.Rejected))
    ensures t.rows == w.rows && t.objects == w.objects
  {
    hide S.IsRun, Reaches;
    Stay(w);
    t := Advance(w, w, S.Resolve(rid, found));
  }

  lemma NothingToCommit(w: S.World, rid: Rid, d: S.Draft) returns (t: S.World)
    requires IsAt(w, rid, S.Drafting(d)) && !d.hasText && d.file.None?
    ensures Moved(w, t, rid, S.Leaving(d, false, S.Rejected)) && t.rows == w.rows && t.objects == w.objects
  {
    hide S.IsRun, Reaches;
    Stay(w);
    t := Advance(w, w, S.Commit(rid));
  }

  lemma PartErrors(w: S.World, rid: Rid, d: S.Draft) returns (t: S.World)
    requires IsAt(w, rid, S.Drafting(d))
    ensures Moved(w, t, rid, S.Leaving(d, false, S.Rejected)) && t.rows == w.rows && t.objects == w.objects
  {
    hide S.IsRun, Reaches;
    Stay(w);
    t := Advance(w, w, S.PartError(rid));
  }

  lemma TextSet(w: S.World, rid: Rid, d: S.Draft, text: bool) returns (t: S.World)
    requires IsAt(w, rid, S.Drafting(d))
    ensures Moved(w, t, rid, S.Drafting(d.(hasText := text))) && t.rows == w.rows && t.objects == w.objects
  {
    hide S.IsRun, Reaches;
    Stay(w);
    t := Advance(w, w, S.SetText(rid, text));
  }

  lemma Discards(w: S.World, rid: Rid, d: S.Draft, committed: bool, reply: S.Reply, gone: bool) returns (t: S.World)
    requires IsAt(w, rid, S.Leaving(d, committed, reply))
    ensures Moved(w, t, rid, S.Ended(d.key, reply)) && t.rows == w.rows
    ensures t.objects == if committed then w.objects else Without(w.objects, d.file, gone)
  {
    hide S.IsRun, Reaches;
    Stay(w);
    t := Advance(w, w, S.Discard(rid, gone));
  }

  lemma Arrives(w: S.World, rid: Rid, key: string, id: JobId) returns (t: S.World)
    requires rid !in w.reqs && id !in w.used && '/' !in id
    ensures Moved(w, t, rid, S.Drafting(S.Draft(id, key, false, None, 0))) && t.rows == w.rows && t.objects == w.objects
  {
    hide S.IsRun, Reaches;
    Stay(w);
    t := Advance(w, w, S.Arrive(rid, key));
    t := Advance(w, t, S.NewDraft(rid, id));
  }

  /** Answered, or refused, before any draft exists. */
  lemma EndsEarly(w: S.World, rid: Rid, key: string, found: Option<JobId>) returns (t: S.World)
    requires rid !in w.reqs && (found.Some? ==> key != "" && S.HasRow(w.rows, found.value, key))
    ensures Moved(w, t, rid, S.Ended(key, if found.Some? then S.Accepted(found.value) else S.Rejected))
    ensures t.rows == w.rows && t.objects == w.objects
  {
    hide S.IsRun, Reaches;
    Stay(w);
    t := Advance(w, w, S.Arrive(rid, key));
    t := Advance(w, t, if found.Some? then S.Answer(rid, found.value) else S.Refuse(rid));
  }

  lemma MovedOn(w: S.World, m: S.World, t: S.World, rid: Rid, r: S.Req, q: S.Req)
    requires Moved(w, m, rid, r) && Moved(m, t, rid, q)
    ensures Moved(w, t, rid, q)
  {
    hide Reaches;
    Compose(w, m, t);
  }

  // ---- the objects -------------------------------------------------------

  class JobService {
    const repo: JobRepo
    var objects: map<string, seq<byte>>
    ghost var world: S.World

    constructor (r: JobRepo)
      requires r.rows == map[]
      ensures repo == r && Valid() && world == S.Empty
    {
      repo, objects, world := r, map[], S.Empty;
    }

    ghost predicate Valid()
      reads this, repo
    {
      world.rows == repo.rows && world.objects == objects
    }
  }

  class Draft {
    const svc: JobService
    const rid: Rid
    const id: JobId
    const key: string
    var hasText: bool
    var uploaded: bool
    var committed: bool
    var objectKey: string
    var size: nat

    constructor (service: JobService, rid: Rid, id: JobId, key: string)
      ensures svc == service && this.rid == rid && this.id == id && this.key == key
      ensures !committed && Value() == S.Draft(id, key, false, None, 0)
    {
      svc, this.rid, this.id, this.key := service, rid, id, key;
      hasText, uploaded, committed, objectKey, size := false, false, false, "", 0;
    }

    function Value(): S.Draft
      reads this
    {
      S.Draft(id, key, hasText, if uploaded then Some(objectKey) else None, size)
    }

    ghost predicate Open()
      reads this, svc, svc.repo
    {
      svc.Valid() && IsAt(svc.world, rid, S.Drafting(Value())) && !committed
    }

    /** A second file is refused; a failed upload is cleaned up defensively. */
    method AttachFile(name: string, stamp: string, put: PutOutcome, cleaned: bool) returns (ok: bool)
      requires Open() && Naming.Digits(stamp)
      modifies this`uploaded, this`objectKey, this`size, svc
      ensures ok <==> !old(uploaded) && put.Stored?
      ensures ok ==> uploaded && objectKey == "jobs/" + id + "/" + Naming.Sanitize(name, stamp) && size == |put.content|
      ensures ok ==> svc.objects == old(svc.objects)[objectKey := put.content]
      ensures !ok && (old(uploaded) || put.Stored?) ==> svc.objects == old(svc.objects)
      ensures !ok && !old(uploaded) && put.Broken? ==>
        var target := "jobs/" + id + "/" + Naming.Sanitize(name, stamp);
        svc.objects == if cleaned then old(svc.objects) - {target}
                       else if put.partial.Some? then old(svc.objects)[target := put.partial.value]
                       else old(svc.objects)
      ensures Moved(old(svc.world), svc.world, rid, if ok then S.Drafting(Value()) else S.Leaving(Value(), false, S.Rejected))
      ensures svc.Valid() && (ok ==> Open())
      ensures !ok ==> Value() == old(Value())
      ensures
        var target := Naming.ObjectKey(id, Naming.Sanitize(name, stamp));
        if ok then
          Value() == old(Value()).(file := Some(target), size := |put.content|)
          && svc.objects == old(svc.objects)[target := put.content]
        else
          svc.objects == if old(uploaded) || put.Stored? then old(svc.objects)
                         else Without(Partly(old(svc.objects), target, put.partial), Some(target), cleaned)
    {
      hide Naming.Sanitize, Reaches;
      ghost var d, w := Value(), svc.world;
      if uploaded {
        svc.world := PartErrors(w, rid, d);
        return false;
      }
      var target := Naming.ObjectKey(id, Naming.Sanitize(name, stamp));
      match put {
        case Stored(content) =>
          svc.objects := svc.objects[target := content];
          uploaded, objectKey, size := true, target, |content|;
          svc.world := Uploads(w, rid, d, name, stamp, content);
          ok := true;
        case Broken(partial) =>
          svc.objects := Without(Partly(svc.objects, target, partial), Some(target), cleaned);
          svc.world := UploadFails(w, rid, d, name, stamp, partial, cleaned);
          ok := false;
      }
    }

    /** A draft without text and file is refused. An insert that met the unique
        index is answered with the job that has the key. */
    method Commit(createdAt: Time, insert: InsertOutcome, cleaned: bool, lookup: bool) returns (reply: S.Reply)
      requires Open()
      modifies this`committed, svc, svc.repo
      ensures svc.Valid() && Value() == old(Value())
      ensures Moved(old(svc.world), svc.world, rid, S.Leaving(Value(), committed, reply))
      ensures
        var before := old(svc.repo.rows);
        var free := id !in before && (key != "" ==> forall j :: j in before ==> before[j].sub.key != key);
        && (committed <==> (hasText || uploaded) && insert.Heard? && free)
        && svc.repo.rows ==
          (if (hasText || uploaded) && !insert.Refused? && free
           then before[id := Row(Pending, 0, "", "", "", None, None, None,
                                 Submission(createdAt, key, if uploaded then objectKey else "", size))]
           else before)
      ensures svc.objects ==
        if !committed && uploaded && cleaned then old(svc.objects) - {objectKey} else old(svc.objects)
      ensures committed ==> reply == S.Accepted(id)
      ensures !committed ==>
        (reply.Accepted? <==>
          && (hasText || uploaded) && insert.Heard? && lookup && key != ""
          && exists job :: job in old(svc.repo.rows) && old(svc.repo.rows)[job].sub.key == key)
      ensures reply.Accepted? ==> reply.job in svc.repo.rows && svc.repo.rows[reply.job].sub.key == key
      ensures committed <==> (hasText || uploaded) && insert.Heard? && Insertable(old(svc.repo.rows), id, key)
      ensures reply.Accepted? ==> S.HasRow(svc.repo.rows, reply.job, key)
      ensures svc.repo.rows ==
        if (hasText || uploaded) && !insert.Refused? && Insertable(old(svc.repo.rows), id, key)
        then old(svc.repo.rows)[id := NewRow(S.NewSubmission(Value(), createdAt))]
        else old(svc.repo.rows)
      ensures svc.objects == if committed then old(svc.objects) else Without(old(svc.objects), Value().file, cleaned)
    {
      hide Reaches;
      ghost var d, w := Value(), svc.world;
      if !hasText && !uploaded {
        svc.world := NothingToCommit(w, rid, d);
        return S.Rejected;
      }
      var sub := Submission(createdAt, key, if uploaded then objectKey else "", size);
      var inserted := false;
      if !insert.Refused? {
        inserted := svc.repo.Create(id, sub);
      }
      if insert.Heard? && inserted {
        committed := true;
        svc.world := Inserts(w, rid, d, createdAt);
        return S.Accepted(id);
      }
      if uploaded {
        svc.objects := Without(svc.objects, Some(objectKey), cleaned);
      }
      if !insert.Heard? {
        svc.world := InsertFails(w, rid, d, createdAt, inserted, cleaned);
        return S.Rejected;
      }
      var found: Option<JobId> := None;
      if lookup {
        found := svc.repo.GetByIdempotencyKey(key);
      }
      ghost var m := LosesInsert(w, rid, d, cleaned);
      svc.world := Resolves(m, rid, d, found);
      reply := if found.Some? then S.Accepted(found.value) else S.Rejected;
      MovedOn(w, m, svc.world, rid, S.Resolving(d), S.Leaving(d, false, reply));
    }

    /** Deferred: removes the object of a request that did not commit. */
    method Discard(cleaned: bool, ghost reply: S.Reply)
      requires svc.Valid() && IsAt(svc.world, rid, S.Leaving(Value(), committed, reply))
      modifies svc
      ensures svc.Valid() && Moved(old(svc.world), svc.world, rid, S.Ended(key, reply))
      ensures svc.objects == if !committed && uploaded && cleaned then old(svc.objects) - {objectKey} else old(svc.objects)
    {
      hide Reaches;
      ghost var w := svc.world;
      if !committed && uploaded {
        svc.objects := Without(svc.objects, Some(objectKey), cleaned);
      }
      svc.world := Discards(w, rid, Value(), committed, reply, cleaned);
    }
  }

  /** What the outside world does during one request: is the key too long, do the
      lookups reach the database, and how do the insert and the deletions end. */
  datatype Weather = Weather(
    keyTooLong: bool, fastLookup: bool, insert: InsertOutcome, lookup: bool, cleaned: bool, discarded: bool)

  ghost predicate PartsOk(parts: seq<Part>) {
    forall i :: 0 <= i < |parts| && parts[i].FilePart? ==> Naming.Digits(parts[i].stamp)
  }

  function Fresh(id: JobId, key: string): S.Draft {
    S.Draft(id, key, false, None, 0)
  }

  /** Can the draft take this part? A second file cannot. */
  predicate Fits(d: S.Draft, p: Part) {
    match p
    case TextPart(_, readable) => readable
    case FilePart(_, _, accepted, put, _) => accepted && d.file.None? && put.Stored?
    case UnknownPart => true
    case BrokenPart => false
  }

  function TargetOf(id: JobId, p: Part): string
    requires p.FilePart?
  {
    Naming.ObjectKey(id, Naming.Sanitize(p.name, p.stamp))
  }

  function Absorb(d: S.Draft, p: Part): S.Draft {
    if p.TextPart? then d.(hasText := p.nonEmpty)
    else if p.FilePart? && p.put.Stored? then d.(file := Some(TargetOf(d.id, p)), size := |p.put.content|)
    else d
  }

  /** The draft after the parts, as far as they fit. */
  function Digest(d: S.Draft, parts: seq<Part>): S.Draft {
    if parts == [] then d else Absorb(Digest(d, parts[..|parts| - 1]), parts[|parts| - 1])
  }

  predicate FormOk(d: S.Draft, parts: seq<Part>) {
    parts == [] || (FormOk(d, parts[..|parts| - 1]) && Fits(Digest(d, parts[..|parts| - 1]), parts[|parts| - 1]))
  }

  function StoredBy(objects: map<string, seq<byte>>, id: JobId, p: Part): map<string, seq<byte>> {
    if p.FilePart? && p.put.Stored? then objects[TargetOf(id, p) := p.put.content] else objects
  }

  function AllStored(objects: map<string, seq<byte>>, id: JobId, parts: seq<Part>): map<string, seq<byte>> {
    if parts == [] then objects else StoredBy(AllStored(objects, id, parts[..|parts| - 1]), id, parts[|parts| - 1])
  }

  lemma {:induction false} FormOkPrefix(d: S.Draft, parts: seq<Part>, n: nat)
    requires n <= |parts| && FormOk(d, parts)
    ensures FormOk(d, parts[..n])
    decreases |parts|
  {
    if n < |parts| {
      assert parts[..|parts| - 1][..n] == parts[..n];
      FormOkPrefix(d, parts[..|parts| - 1], n);
    } else {
      assert parts[..n] == parts;
    }
  }

  lemma {:induction false} DigestKeepsKey(d: S.Draft, parts: seq<Part>)
    ensures Digest(d, parts).id == d.id && Digest(d, parts).key == d.key
  {
    if parts != [] {
      DigestKeepsKey(d, parts[..|parts| - 1]);
    }
  }

  predicate Good(p: Part) {
    match p
    case TextPart(_, readable) => readable
    case FilePart(_, _, accepted, put, _) => accepted && put.Stored?
    case UnknownPart => true
    case BrokenPart => false
  }

  ghost predicate HasFile(parts: seq<Part>) {
    exists i :: 0 <= i < |parts| && parts[i].FilePart?
  }

  ghost predicate OneFile(parts: seq<Part>) {
    forall i, j :: 0 <= i < j < |parts| ==> !(parts[i].FilePart? && parts[j].FilePart?)
  }

  /** A form is good exactly when each part is, and at most one is a file, counting
      one the draft has already; then the draft has a file if the form has one. */
  lemma {:induction false} GoodForms(d: S.Draft, parts: seq<Part>)
    ensures FormOk(d, parts) <==>
      (forall i :: 0 <= i < |parts| ==> Good(parts[i])) && OneFile(parts) && !(d.file.Some? && HasFile(parts))
    ensures FormOk(d, parts) ==> (Digest(d, parts).file.Some? <==> d.file.Some? || HasFile(parts))
    decreases |parts|
  {
    if parts != [] {
      var n := |parts| - 1;
      GoodForms(d, parts[..n]);
      assert forall i :: 0 <= i < n ==> parts[..n][i] == parts[i];
      assert HasFile(parts[..n]) <==> exists i :: 0 <= i < n && parts[i].FilePart?;
    }
  }

  predicate LastText(parts: seq<Part>, i: int) {
    0 <= i < |parts| && parts[i].TextPart? && forall j :: i < j < |parts| ==> !parts[j].TextPart?
  }

  /** The draft has text when the last text part is not empty. */
  lemma {:induction false} TextOf(d: S.Draft, parts: seq<Part>)
    ensures forall i :: LastText(parts, i) ==> Digest(d, parts).hasText == parts[i].nonEmpty
    ensures (forall i :: 0 <= i < |parts| ==> !parts[i].TextPart?) ==> Digest(d, parts).hasText == d.hasText
    decreases |parts|
  {
    hide Digest;
    DigestSnoc(d, parts);
    if parts != [] {
      var n := |parts| - 1;
      TextOf(d, parts[..n]);
      assert forall i :: 0 <= i < n ==> parts[..n][i] == parts[i];
      assert forall i :: LastText(parts, i) && !parts[n].TextPart? ==> LastText(parts[..n], i);
    }
  }

  lemma DigestSnoc(d: S.Draft, parts: seq<Part>)
    ensures parts == [] ==> Digest(d, parts) == d
    ensures parts != [] ==> Digest(d, parts) == Absorb(Digest(d, parts[..|parts| - 1]), parts[|parts| - 1])
  {
  }

  ghost predicate HasText(parts: seq<Part>) {
    exists i :: LastText(parts, i) && parts[i].nonEmpty
  }

  lemma {:induction false} SomeTextIsLast(parts: seq<Part>)
    ensures (exists i :: LastText(parts, i)) || forall i :: 0 <= i < |parts| ==> !parts[i].TextPart?
    decreases |parts|
  {
    if parts != [] {
      var n := |parts| - 1;
      if parts[n].TextPart? {
        assert LastText(parts, n);
      } else {
        SomeTextIsLast(parts[..n]);
        if i :| LastText(parts[..n], i) {
          assert forall j :: 0 <= j < n ==> parts[..n][j] == parts[j];
          assert LastText(parts, i);
        }
      }
    }
  }

  /** The file of a good form is stored under the draft's prefix, and nothing else
      is. */
  lemma {:induction false} FileOf(d: S.Draft, objects: map<string, seq<byte>>, parts: seq<Part>)
    requires FormOk(d, parts)
    ensures Digest(d, parts).id == d.id && Digest(d, parts).key == d.key
    ensures forall i :: 0 <= i < |parts| && parts[i].FilePart? ==>
      && parts[i].put.Stored?
      && Digest(d, parts).file == Some(TargetOf(d.id, parts[i])) && Digest(d, parts).size == |parts[i].put.content|
      && AllStored(objects, d.id, parts) == objects[TargetOf(d.id, parts[i]) := parts[i].put.content]
    ensures !HasFile(parts) ==>
      Digest(d, parts).file == d.file && Digest(d, parts).size == d.size && AllStored(objects, d.id, parts) == objects
    decreases |parts|
  {
    hide TargetOf;
    if parts != [] {
      var n := |parts| - 1;
      FileOf(d, objects, parts[..n]);
      GoodForms(d, parts[..n]);
      assert forall i :: 0 <= i < n ==> parts[..n][i] == parts[i];
    }
  }

  /** What a fresh draft becomes, by the parts of its form. */
  lemma FreshDigest(id: JobId, key: string, objects: map<string, seq<byte>>, parts: seq<Part>)
    requires FormOk(Fresh(id, key), parts)
    ensures
      var d, after := Digest(Fresh(id, key), parts), AllStored(objects, id, parts);
      && d.id == id && d.key == key && (d.hasText <==> HasText(parts)) && (d.file.Some? <==> HasFile(parts))
      && (!HasFile(parts) ==> d.size == 0 && S.KeyOf(d) == "" && after == objects)
      && forall i :: 0 <= i < |parts| && parts[i].FilePart? ==>
        var target := "jobs/" + id + "/" + Naming.Sanitize(parts[i].name, parts[i].stamp);
        && S.KeyOf(d) == target && parts[i].put.Stored? && d.size == |parts[i].put.content|
        && after == objects[target := parts[i].put.content]
  {
    hide Digest, FormOk, AllStored, Naming.Sanitize, LastText;
    var d := Fresh(id, key);
    FileOf(d, objects, parts);
    TextOf(d, parts);
    SomeTextIsLast(parts);
  }

  lemma DigestNext(d: S.Draft, objects: map<string, seq<byte>>, parts: seq<Part>, i: nat)
    requires i < |parts|
    ensures Digest(d, parts[..i + 1]) == Absorb(Digest(d, parts[..i]), parts[i])
    ensures FormOk(d, parts[..i + 1]) <==> FormOk(d, parts[..i]) && Fits(Digest(d, parts[..i]), parts[i])
    ensures AllStored(objects, d.id, parts[..i + 1]) == StoredBy(AllStored(objects, d.id, parts[..i]), d.id, parts[i])
  {
    hide Absorb, Fits, StoredBy;
    assert parts[..i + 1][..i] == parts[..i];
  }

  /** Where a request is once its form was read, or a part was refused. */
  function AfterParts(d: S.Draft, ok: bool): S.Req {
    if ok then S.Drafting(d) else S.Leaving(d, false, S.Rejected)
  }

  /** One part of the form. */
  method ReadPart(draft: Draft, part: Part) returns (ok: bool)
    requires draft.Open() && (part.FilePart? ==> Naming.Digits(part.stamp))
    modifies draft`hasText, draft`uploaded, draft`objectKey, draft`size, draft.svc
    ensures draft.svc.Valid() && (ok ==> draft.Open())
    ensures Moved(old(draft.svc.world), draft.svc.world, draft.rid, AfterParts(draft.Value(), ok))
    ensures ok <==> Fits(old(draft.Value()), part)
    ensures ok ==> draft.Value() == Absorb(old(draft.Value()), part)
    ensures ok ==> draft.svc.objects == StoredBy(old(draft.svc.objects), draft.id, part)
  {
    hide Reaches, Naming.Sanitize, Naming.ObjectKey;
    ghost var m := draft.svc.world;
    match part {
      case TextPart(nonEmpty, readable) =>
        if readable {
          draft.hasText := nonEmpty;
          draft.svc.world := TextSet(m, draft.rid, old(draft.Value()), nonEmpty);
        } else {
          draft.svc.world := PartErrors(m, draft.rid, draft.Value());
        }
        ok := readable;
      case FilePart(name, stamp, accepted, put, cleaned) =>
        if accepted {
          ok := draft.AttachFile(name, stamp, put, cleaned);
        } else {
          draft.svc.world := PartErrors(m, draft.rid, draft.Value());
          ok := false;
        }
      case UnknownPart =>
        Stay(m);
        ok := true;
      case BrokenPart =>
        draft.svc.world := PartErrors(m, draft.rid, draft.Value());
        ok := false;
    }
  }

  /** The loop over the parts of the form. */
  method ReadParts(draft: Draft, parts: seq<Part>) returns (ok: bool)
    requires draft.Open() && PartsOk(parts)
    modifies draft`hasText, draft`uploaded, draft`objectKey, draft`size, draft.svc
    ensures draft.svc.Valid()
    ensures Moved(old(draft.svc.world), draft.svc.world, draft.rid, AfterParts(draft.Value(), ok))
    ensures ok <==>
      && (forall i :: 0 <= i < |parts| ==>
            match parts[i]
            case TextPart(_, readable) => readable
            case FilePart(_, _, accepted, put, _) => accepted && put.Stored? && !old(draft.uploaded)
            case UnknownPart => true
            case BrokenPart => false)
      && forall i, j :: 0 <= i < j < |parts| ==> !(parts[i].FilePart? && parts[j].FilePart?)
    ensures ok ==> forall i :: 0 <= i < |parts| && parts[i].TextPart? && (forall j :: i < j < |parts| ==> !parts[j].TextPart?) ==>
      draft.hasText == parts[i].nonEmpty
    ensures ok && (forall i :: 0 <= i < |parts| ==> !parts[i].TextPart?) ==> draft.hasText == old(draft.hasText)
    ensures ok ==> forall i :: 0 <= i < |parts| && parts[i].FilePart? ==>
      && draft.uploaded && draft.size == |parts[i].put.content|
      && draft.objectKey == "jobs/" + draft.id + "/" + Naming.Sanitize(parts[i].name, parts[i].stamp)
      && draft.svc.objects == old(draft.svc.objects)[draft.objectKey := parts[i].put.content]
    ensures ok && (forall i :: 0 <= i < |parts| ==> !parts[i].FilePart?) ==>
      && draft.uploaded == old(draft.uploaded) && draft.svc.objects == old(draft.svc.objects)
    ensures ok <==> FormOk(old(draft.Value()), parts)
    ensures ok ==> draft.Value() == Digest(old(draft.Value()), parts)
    ensures ok ==> draft.svc.objects == AllStored(old(draft.svc.objects), draft.id, parts)
  {
    hide Reaches, Digest, FormOk, AllStored, Absorb, Fits, StoredBy;
    ghost var w, d, objects := draft.svc.world, draft.Value(), draft.svc.objects;
    Stay(w);
    NothingRead(d, objects, parts);
    FormSpelledOut(d, objects, parts);
    var i := 0;
    while i < |parts|
      invariant 0 <= i <= |parts|
      invariant draft.Open() && Moved(w, draft.svc.world, draft.rid, S.Drafting(draft.Value()))
      invariant FormOk(d, parts[..i]) && draft.Value() == Digest(d, parts[..i])
      invariant draft.svc.objects == AllStored(objects, d.id, parts[..i])
    {
      ghost var m, r := draft.svc.world, S.Drafting(draft.Value());
      DigestNext(d, objects, parts, i);
      ok := ReadPart(draft, parts[i]);
      MovedOn(w, m, draft.svc.world, draft.rid, r, AfterParts(draft.Value(), ok));
      if !ok {
        if FormOk(d, parts) {
          FormOkPrefix(d, parts, i + 1);
        }
        return;
      }
      i := i + 1;
    }
    assert parts[..i] == parts;
    ok := true;
  }

  /** The contract of ReadParts on the parts themselves. */
  lemma FormSpelledOut(d: S.Draft, objects: map<string, seq<byte>>, parts: seq<Part>)
    ensures FormOk(d, parts) <==>
      && (forall i :: 0 <= i < |parts| ==>
            match parts[i]
            case TextPart(_, readable) => readable
            case FilePart(_, _, accepted, put, _) => accepted && put.Stored? && d.file.None?
            case UnknownPart => true
            case BrokenPart => false)
      && forall i, j :: 0 <= i < j < |parts| ==> !(parts[i].FilePart? && parts[j].FilePart?)
    ensures forall i :: 0 <= i < |parts| && parts[i].TextPart? && (forall j :: i < j < |parts| ==> !parts[j].TextPart?) ==>
      Digest(d, parts).hasText == parts[i].nonEmpty
    ensures (forall i :: 0 <= i < |parts| ==> !parts[i].TextPart?) ==> Digest(d, parts).hasText == d.hasText
    ensures FormOk(d, parts) ==> forall i :: 0 <= i < |parts| && parts[i].FilePart? ==>
      var target := "jobs/" + d.id + "/" + Naming.Sanitize(parts[i].name, parts[i].stamp);
      && parts[i].put.Stored? && Digest(d, parts).file == Some(target)
      && Digest(d, parts).size == |parts[i].put.content| && AllStored(objects, d.id, parts) == objects[target := parts[i].put.content]
    ensures FormOk(d, parts) && (forall i :: 0 <= i < |parts| ==> !parts[i].FilePart?) ==>
      Digest(d, parts).file == d.file && AllStored(objects, d.id, parts) == objects
  {
    hide FormOk, Digest, AllStored, Naming.Sanitize;
    GoodForms(d, parts);
    TextOf(d, parts);
    assert forall i :: LastText(parts, i) ==> Digest(d, parts).hasText == parts[i].nonEmpty;
    if FormOk(d, parts) {
      FileOf(d, objects, parts);
    }
  }

  lemma NothingRead(d: S.Draft, objects: map<string, seq<byte>>, parts: seq<Part>)
    ensures Digest(d, parts[..0]) == d && FormOk(d, parts[..0]) && AllStored(objects, d.id, parts[..0]) == objects
  {
  }

  /** The insert of this draft takes effect, whether that is heard or not. */
  predicate Inserted(d: S.Draft, rows: Table, weather: Weather) {
    (d.hasText || d.file.Some?) && !weather.insert.Refused? && Insertable(rows, d.id, d.key)
  }

  /** Commit, if the form could be read, and the deferred Discard in any case. */
  method Conclude(draft: Draft, parsed: bool, createdAt: Time, weather: Weather) returns (reply: S.Reply)
    requires draft.svc.Valid() && !draft.committed
    requires IsAt(draft.svc.world, draft.rid, AfterParts(draft.Value(), parsed))
    modifies draft`committed, draft.svc, draft.svc.repo
    ensures draft.svc.Valid() && Moved(old(draft.svc.world), draft.svc.world, draft.rid, S.Ended(draft.key, reply))
    ensures reply.Accepted? ==> S.HasRow(draft.svc.repo.rows, reply.job, draft.key)
    ensures draft.svc.repo.rows ==
      if parsed && Inserted(old(draft.Value()), old(draft.svc.repo.rows), weather)
      then old(draft.svc.repo.rows)[draft.id := NewRow(S.NewSubmission(old(draft.Value()), createdAt))]
      else old(draft.svc.repo.rows)
    ensures
      var lands := parsed && Inserted(old(draft.Value()), old(draft.svc.repo.rows), weather) && weather.insert.Heard?;
      && (lands ==> reply == S.Accepted(draft.id))
      && draft.svc.objects ==
        Without(old(draft.svc.objects), old(draft.Value()).file,
                !lands && (weather.discarded || (parsed && weather.cleaned)))
    ensures !parsed || weather.insert.Unheard? ==> reply == S.Rejected
    ensures !parsed ==> draft.svc.repo.rows == old(draft.svc.repo.rows)
  {
    hide Reaches;
    ghost var w := draft.svc.world;
    Stay(w);
    reply := S.Rejected;
    if parsed {
      reply := draft.Commit(createdAt, weather.insert, weather.cleaned, weather.lookup);
    }
    ghost var n, r := draft.svc.world, S.Leaving(draft.Value(), draft.committed, reply);
    assert Moved(w, n, draft.rid, r);
    draft.Discard(weather.discarded, reply);
    MovedOn(w, n, draft.svc.world, draft.rid, r, S.Ended(draft.key, reply));
  }

  /** The answers given before the body is read. */
  method FastPath(svc: JobService, rid: Rid, key: string, weather: Weather) returns (reply: Option<S.Reply>)
    requires svc.Valid() && rid !in svc.world.reqs
    modifies svc`world
    ensures svc.Valid() && (reply.None? ==> svc.world == old(svc.world))
    ensures reply.Some? ==> Moved(old(svc.world), svc.world, rid, S.Ended(key, reply.value))
    ensures reply.Some? && reply.value.Accepted? ==>
      && weather.fastLookup && !weather.keyTooLong
      && reply.value.job in svc.repo.rows && svc.repo.rows[reply.value.job].sub.key == key
    ensures key != "" && weather.keyTooLong ==> reply == Some(S.Rejected)
    ensures reply.Some? ==> key != "" && (weather.keyTooLong || exists job :: job in svc.repo.rows && svc.repo.rows[job].sub.key == key)
    ensures
      && !weather.keyTooLong && weather.fastLookup && key != ""
      && (exists job :: job in svc.repo.rows && svc.repo.rows[job].sub.key == key) ==>
      reply.Some? && reply.value.Accepted?
  {
    hide Reaches;
    if key == "" {
      return None;
    }
    if weather.keyTooLong {
      svc.world := EndsEarly(svc.world, rid, key, None);
      return Some(S.Rejected);
    }
    if weather.fastLookup {
      var existing := svc.repo.GetByIdempotencyKey(key);
      if existing.Some? {
        svc.world := EndsEarly(svc.world, rid, key, existing);
        return Some(S.Accepted(existing.value));
      }
    }
    reply := None;
  }

  /** Everything from the draft on. */
  method Submit(svc: JobService, rid: Rid, key: string, id: JobId, parts: seq<Part>, createdAt: Time, weather: Weather)
    returns (reply: S.Reply)
    requires svc.Valid() && PartsOk(parts)
    requires rid !in svc.world.reqs && id !in svc.world.used && '/' !in id
    modifies svc, svc.repo
    ensures svc.Valid() && Moved(old(svc.world), svc.world, rid, S.Ended(key, reply))
    ensures reply.Accepted? ==> S.HasRow(svc.repo.rows, reply.job, key)
    ensures !FormOk(Fresh(id, key), parts) || weather.insert.Unheard? ==> reply == S.Rejected
    ensures
      var d := Digest(Fresh(id, key), parts);
      if FormOk(Fresh(id, key), parts) && Inserted(d, old(svc.repo.rows), weather)
      then
        && svc.repo.rows == old(svc.repo.rows)[id := NewRow(S.NewSubmission(d, createdAt))]
        && (weather.insert.Heard? ==> reply == S.Accepted(id) && svc.objects == AllStored(old(svc.objects), id, parts))
      else svc.repo.rows == old(svc.repo.rows)
  {
    hide Reaches, S.HasRow, Digest, FormOk, AllStored, Inserted;
    ghost var w := svc.world;
    var draft := new Draft(svc, rid, id, key);
    svc.world := Arrives(w, rid, key, id);
    ghost var m := svc.world;
    var ok := ReadParts(draft, parts);
    ghost var n, r := svc.world, AfterParts(draft.Value(), ok);
    MovedOn(w, m, n, rid, S.Drafting(Fresh(id, key)), r);
    reply := Conclude(draft, ok, createdAt, weather);
    MovedOn(w, n, svc.world, rid, r, S.Ended(key, reply));
  }

  /** CreateJob. A replay, answered before the body is read, changes nothing. A good
      form with text or a file, and with no key or one that no job has, becomes the
      job it describes once the insert takes effect; nothing else reaches the table.
      And whatever happens, the request ends by steps of the protocol. */
  method CreateJob(svc: JobService, rid: Rid, key: string, id: JobId, parts: seq<Part>, createdAt: Time, weather: Weather)
    returns (reply: S.Reply)
    requires svc.Valid() && PartsOk(parts)
    requires rid !in svc.world.reqs && id !in svc.world.used && '/' !in id
    modifies svc, svc.repo
    ensures svc.Valid() && Moved(old(svc.world), svc.world, rid, S.Ended(key, reply))
    ensures reply.Accepted? ==> reply.job in svc.repo.rows && svc.repo.rows[reply.job].sub.key == key
    ensures key != "" && weather.keyTooLong ==>
      reply == S.Rejected && svc.repo.rows == old(svc.repo.rows) && svc.objects == old(svc.objects)
    ensures
      && key != "" && !weather.keyTooLong && weather.fastLookup
      && (exists job :: job in old(svc.repo.rows) && old(svc.repo.rows)[job].sub.key == key) ==>
      reply.Accepted? && svc.repo.rows == old(svc.repo.rows) && svc.objects == old(svc.objects)
    ensures
      && (key == "" || !weather.keyTooLong)
      && (forall i :: 0 <= i < |parts| ==>
            match parts[i]
            case TextPart(_, readable) => readable
            case FilePart(_, _, accepted, put, _) => accepted && put.Stored?
            case UnknownPart => true
            case BrokenPart => false)
      && (forall i, j :: 0 <= i < j < |parts| ==> !(parts[i].FilePart? && parts[j].FilePart?))
      && (exists i :: 0 <= i < |parts| &&
            (parts[i].FilePart? ||
             (parts[i].TextPart? && parts[i].nonEmpty && forall j :: i < j < |parts| ==> !parts[j].TextPart?)))
      && id !in old(svc.repo.rows)
      && (key == "" || forall job :: job in old(svc.repo.rows) ==> old(svc.repo.rows)[job].sub.key != key)
      && !weather.insert.Refused? ==>
      && id in svc.repo.rows && svc.repo.rows == old(svc.repo.rows)[id := svc.repo.rows[id]]
      && svc.repo.rows[id] == Row(Pending, 0, "", "", "", None, None, None, svc.repo.rows[id].sub)
      && svc.repo.rows[id].sub.createdAt == createdAt && svc.repo.rows[id].sub.key == key
      && (weather.insert.Heard? ==> reply == S.Accepted(id))
      && (forall i :: 0 <= i < |parts| && parts[i].FilePart? ==>
            var target, content := "jobs/" + id + "/" + Naming.Sanitize(parts[i].name, parts[i].stamp), parts[i].put.content;
            && svc.repo.rows[id].sub.objectKey == target && svc.repo.rows[id].sub.size == |content|
            && (weather.insert.Heard? ==> svc.objects == old(svc.objects)[target := content]))
      && ((forall i :: 0 <= i < |parts| ==> !parts[i].FilePart?) ==>
            && svc.repo.rows[id].sub.objectKey == "" && svc.repo.rows[id].sub.size == 0
            && (weather.insert.Heard? ==> svc.objects == old(svc.objects)))
    ensures svc.repo.rows != old(svc.repo.rows) ==>
      && (forall i :: 0 <= i < |parts| ==> Good(parts[i])) && OneFile(parts) && (HasText(parts) || HasFile(parts))
      && !weather.insert.Refused? && Insertable(old(svc.repo.rows), id, key)
    ensures weather.insert.Unheard? && reply.Accepted? ==> svc.repo.rows == old(svc.repo.rows)
  {
    hide Reaches, FormOk, AllStored, Digest, Good, HasText, HasFile, OneFile, Naming.Sanitize;
    GoodForms(Fresh(id, key), parts);
    if FormOk(Fresh(id, key), parts) {
      FreshDigest(id, key, svc.objects, parts);
    }
    GoodPlainly(parts);
    var early := FastPath(svc, rid, key, weather);
    if early.Some? {
      return early.value;
    }
    reply := Submit(svc, rid, key, id, parts, createdAt, weather);
  }

  lemma GoodPlainly(parts: seq<Part>)
    ensures (forall i :: 0 <= i < |parts| ==> Good(parts[i])) <==>
      forall i :: 0 <= i < |parts| ==>
        match parts[i]
        case TextPart(_, readable) => readable
        case FilePart(_, _, accepted, put, _) => accepted && put.Stored?
        case UnknownPart => true
        case BrokenPart => false
    ensures OneFile(parts) <==> forall i, j :: 0 <= i < j < |parts| ==> !(parts[i].FilePart? && parts[j].FilePart?)
    ensures HasText(parts) || HasFile(parts) <==>
      exists i :: (
        && 0 <= i < |parts|
        && (parts[i].FilePart? ||
            (parts[i].TextPart? && parts[i].nonEmpty && forall j :: i < j < |parts| ==> !parts[j].TextPart?)))
    ensures HasFile(parts) <==> exists i :: 0 <= i < |parts| && parts[i].FilePart?
  {
    if HasText(parts) {
      var i :| LastText(parts, i) && parts[i].nonEmpty;
      assert parts[i].TextPart?;
    }
    if i :| 0 <= i < |parts| && parts[i].TextPart? && parts[i].nonEmpty && forall j :: i < j < |parts| ==> !parts[j].TextPart? {
      assert LastText(parts, i);
    }
  }

  /** So the two stores of a service that takes one request after the other are
      covered by SubmissionResults: in particular they agree whenever no deletion
      failed and no insert was torn. */
  lemma RequestsKeepReachable(w: S.World, t: S.World, rid: Rid, key: string, reply: S.Reply)
    requires SubmissionResults.Reachable(w) && SubmissionResults.AtRest(w) && Moved(w, t, rid, S.Ended(key, reply))
    ensures SubmissionResults.Reachable(t) && SubmissionResults.AtRest(t)
    ensures t.log.leaked == map[] && t.log.torn == {} ==> t.objects.Keys == SubmissionResults.NamedKeys(t.rows)
  {
    hide S.IsRun, S.Inv, SubmissionResults.NamedKeys;
    var first :| S.IsRun(S.Empty, first, w);
    var second :| S.IsRun(w, second, t);
    RunsCompose(S.Empty, first, w, second, t);
    SubmissionResults.StoresAgreeAtRest(t);
    SubmissionResults.OnlyTornJobsLose(t);
  }
}
