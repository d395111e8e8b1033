/** The worker's own code, between the points where other goroutines act: claiming
    into the channel, running one job and recording its outcome, and handing
    queued jobs back at shutdown. */
module WorkerLoop {
  import opened Prelude
  import opened JobTable
  import Processor
  import JobRuns

  type Ticket = JobRuns.Ticket

  /** WORKER_ID, WORKER_CONCURRENCY (the channel's capacity), WORKER_CLAIM_BATCH,
      MAX_ATTEMPTS, RETRY_BACKOFF_BASE and _MAX, MOCK_MAX_RETRIES. */
  datatype Config = Config(workerId: string, capacity: nat, batch: nat, maxAttempts: int, base: int, cap: int, maxRetries: int)

  /** What the poller meets in one round: jobs its workers took meanwhile, whether
      the context or stopCh ended, how the claim goes, and after how many sends,
      if at all, the context is seen cancelled. */
  datatype Round = Round(
    taken: nat, ending: bool, now: Time, until: Time, locked: set<JobId>, answer: Answer, cancelAfter: Option<nat>)

  /** A claim that reports an error may have taken effect. */
  datatype Answer = Heard | Unheard | Refused

  /** The calls one processing run makes: none without its presigned URL. */
  function RunCalls(maxRetries: int, hasObject: bool, presigned: bool, replies: nat -> Processor.Reply, cancels: nat -> bool): (n: nat)
    ensures n <= Processor.Bound(maxRetries)
  {
    if hasObject && !presigned then 0 else Processor.CallsFrom(maxRetries, replies, cancels, 1)
  }

  /** How processing a job ended. */
  datatype Ending = Summary(text: string) | Trouble(permanent: bool, message: string) | Crash

  function Claimed(rows: Table, ids: seq<JobId>): (r: seq<Ticket>)
    ensures |r| == |ids|
  {
    seq(|ids|, i requires 0 <= i < |ids| => JobRuns.Ticket(ids[i], if ids[i] in rows then rows[ids[i]].attempts else 0))
  }

  function ReleasedRow(r: Row, maxAttempts: int, now: Time): Row {
    if r.attempts < maxAttempts
    then r.(status := Pending, error := "worker shutting down", leaseUntil := None,
            lockedBy := "", nextAttemptAt := Some(now), completedAt := None)
    else r.(status := Failed, error := "worker shutting down", leaseUntil := None,
            lockedBy := "", nextAttemptAt := None, completedAt := Some(now))
  }

  /** A retry without a delay: due at once. */
  lemma RetryReleases(r: Row, maxAttempts: int, now: Time)
    ensures RetryRow(r, "worker shutting down", maxAttempts, 0, 0, now) == ReleasedRow(r, maxAttempts, now)
  {
    assert Delay(r.attempts, 0, 0) == 0;
  }

  class Worker {
    const cfg: Config
    const repo: JobRepo
    var jobs: seq<Ticket>

    constructor (cfg: Config, repo: JobRepo)
      ensures this.cfg == cfg && this.repo == repo && jobs == []
    {
      this.cfg, this.repo, jobs := cfg, repo, [];
    }

    /** Sending a claimed batch: there is room for all of it, so only the cancelled
        context stops the poller, which then drops the rest. */
    method SendAll(batch: seq<Ticket>, cancelAfter: Option<nat>) returns (rest: seq<Ticket>)
      requires |jobs| + |batch| <= cfg.capacity
      modifies this`jobs
      ensures jobs + rest == old(jobs) + batch && |old(jobs)| <= |jobs| <= cfg.capacity
      ensures rest == [] || cancelAfter.Some?
    {
      var sent := 0;
      while sent < |batch|
        invariant 0 <= sent <= |batch| && jobs == old(jobs) + batch[..sent]
      {
        if cancelAfter == Some(sent) {
          break;
        }
        assert |jobs| < cfg.capacity;
        jobs := jobs + [batch[sent]];
        sent := sent + 1;
      }
      rest := batch[sent..];
    }

    /** The tickets of the rows that a claim took: those it changed. */
    method Claim(r: Round, limit: nat) returns (claimed: seq<Ticket>)
      modifies repo
      ensures TableOk(old(repo.rows)) ==> TableOk(repo.rows)
      ensures repo.rows.Keys == old(repo.rows).Keys
      ensures forall t :: t in claimed ==>
        && t.id in repo.rows && repo.rows[t.id] != old(repo.rows)[t.id] && repo.rows[t.id].attempts == t.attempt
      ensures forall i, j :: 0 <= i < j < |claimed| ==> claimed[i].id != claimed[j].id
      ensures forall id :: id in repo.rows && repo.rows[id] != old(repo.rows)[id] ==>
        && old(repo.rows)[id].status == Pending && id !in r.locked && Queued(claimed, id)
        && (old(repo.rows)[id].nextAttemptAt == None || old(repo.rows)[id].nextAttemptAt.value <= r.now)
        && repo.rows[id] == old(repo.rows)[id].(
          status := Processing, attempts := old(repo.rows)[id].attempts + 1, leaseUntil := Some(r.until),
          lockedBy := cfg.workerId, nextAttemptAt := None)
      ensures
        var touched := set id | id in repo.rows && repo.rows[id] != old(repo.rows)[id];
        && |claimed| == |touched| <= limit
        && forall b ::
          && b in repo.rows && b !in touched && b !in r.locked && repo.rows[b].status == Pending
          && (repo.rows[b].nextAttemptAt == None || repo.rows[b].nextAttemptAt.value <= r.now) ==>
          && |touched| == limit
          && forall a :: a in touched ==> old(repo.rows)[a].sub.createdAt <= repo.rows[b].sub.createdAt
    {
      hide TableOk, OldestDue, ClaimAll, Elements, Claimed, Queued;
      ghost var before := repo.rows;
      var ids := repo.ClaimBatch(cfg.workerId, r.until, limit, r.now, r.locked);
      ClaimFits(repo.rows, ids);
      Touched(before, repo.rows, ids);
      claimed := Claimed(repo.rows, ids);
    }

    /** One round of pollOnce; `again` says whether it goes round the loop. */
    method PollRound(r: Round) returns (claimed: seq<Ticket>, taken: seq<Ticket>, dropped: seq<Ticket>, again: bool)
      requires |jobs| <= cfg.capacity
      modifies this`jobs, repo
      ensures taken + jobs + dropped == old(jobs) + claimed
      ensures |jobs| <= cfg.capacity && |dropped| <= cfg.batch
      ensures taken == old(jobs)[..Min(r.taken, |old(jobs)|)]
      ensures again <==> claimed != [] && dropped == []
      ensures dropped != [] ==> r.cancelAfter.Some?
      ensures TableOk(old(repo.rows)) ==> TableOk(repo.rows)
      ensures repo.rows.Keys == old(repo.rows).Keys
      ensures forall t :: t in claimed ==>
        && t.id in repo.rows && repo.rows[t.id] != old(repo.rows)[t.id] && repo.rows[t.id].attempts == t.attempt
      ensures !r.answer.Unheard? ==>
        forall id :: id in repo.rows && repo.rows[id] != old(repo.rows)[id] ==> Queued(claimed, id)
      ensures forall i, j :: 0 <= i < j < |claimed| ==> claimed[i].id != claimed[j].id
      ensures forall id :: id in repo.rows && repo.rows[id] != old(repo.rows)[id] ==>
        && old(repo.rows)[id].status == Pending && id !in r.locked
        && (old(repo.rows)[id].nextAttemptAt == None || old(repo.rows)[id].nextAttemptAt.value <= r.now)
        && repo.rows[id] == old(repo.rows)[id].(
          status := Processing, attempts := old(repo.rows)[id].attempts + 1, leaseUntil := Some(r.until),
          lockedBy := cfg.workerId, nextAttemptAt := None)
      ensures
        var left := |old(jobs)| - Min(r.taken, |old(jobs)|);
        var limit := if cfg.capacity - left <= cfg.batch then cfg.capacity - left else cfg.batch;
        var touched := set id | id in repo.rows && repo.rows[id] != old(repo.rows)[id];
        if r.ending || left >= cfg.capacity || r.answer.Refused? then claimed == [] && touched == {}
        else
          && |claimed| == (if r.answer.Heard? then |touched| else 0)
          && |touched| <= limit
          && forall b ::
            && b in repo.rows && b !in touched && b !in r.locked && repo.rows[b].status == Pending
            && (repo.rows[b].nextAttemptAt == None || repo.rows[b].nextAttemptAt.value <= r.now) ==>
            && |touched| == limit
            && forall a :: a in touched ==> old(repo.rows)[a].sub.createdAt <= repo.rows[b].sub.createdAt
    {
      hide TableOk, Queued;
      var k := Min(r.taken, |jobs|);
      claimed, taken, dropped, again := [], jobs[..k], [], false;
      jobs := jobs[k..];
      ghost var queue := jobs;
      assert old(jobs) == taken + queue;
      if r.ending || |jobs| >= cfg.capacity {
        return;
      }
      var limit := Min(cfg.capacity - |jobs|, cfg.batch);
      if r.answer.Refused? {
        return;
      }
      var batch := Claim(r, limit);
      if r.answer.Unheard? || batch == [] {
        return;
      }
      claimed := batch;
      dropped := SendAll(claimed, r.cancelAfter);
      again := dropped == [];
      assert taken + jobs + dropped == taken + (queue + claimed);
    }

    /** pollOnce. Every job that was queued or is claimed is, in this order, taken
        by a worker, still queued, or dropped; at most one batch is cut off. The
        rows it changed are pending ones now processing, and unless a claim's answer
        was lost each of them was claimed. */
    method PollOnce(rounds: seq<Round>) returns (claimed: seq<Ticket>, taken: seq<Ticket>, dropped: seq<Ticket>)
      requires |jobs| <= cfg.capacity
      modifies this`jobs, repo
      ensures taken + jobs + dropped == old(jobs) + claimed
      ensures |jobs| <= cfg.capacity && |dropped| <= cfg.batch
      ensures dropped != [] ==> exists i :: 0 <= i < |rounds| && rounds[i].cancelAfter.Some?
      ensures repo.rows.Keys == old(repo.rows).Keys
      ensures forall t :: t in claimed ==>
        && t.id in repo.rows && repo.rows[t.id] != old(repo.rows)[t.id] && repo.rows[t.id].attempts == t.attempt
      ensures forall id :: id in repo.rows && repo.rows[id] != old(repo.rows)[id] ==>
        && old(repo.rows)[id].status == Pending && repo.rows[id].status == Processing
        && repo.rows[id].attempts == old(repo.rows)[id].attempts + 1
        && repo.rows[id].lockedBy == cfg.workerId && repo.rows[id].leaseUntil != None
        && repo.rows[id].sub == old(repo.rows)[id].sub
      ensures (forall i :: 0 <= i < |rounds| ==> !rounds[i].answer.Unheard?) ==>
        forall id :: id in repo.rows && repo.rows[id] != old(repo.rows)[id] ==> Queued(claimed, id)
      ensures TableOk(old(repo.rows)) ==> TableOk(repo.rows)
    {
      hide TableOk, Queued, Taken;
      claimed, taken, dropped := [], [], [];
      ghost var heard := true;
      RoundTakes(cfg.workerId, repo.rows, repo.rows, [], true);
      var i, again := 0, true;
      while i < |rounds| && again
        invariant 0 <= i <= |rounds| && (again ==> dropped == [])
        invariant taken + jobs + dropped == old(jobs) + claimed
        invariant |jobs| <= cfg.capacity && |dropped| <= cfg.batch
        invariant dropped != [] ==> exists i :: 0 <= i < |rounds| && rounds[i].cancelAfter.Some?
        invariant Taken(cfg.workerId, old(repo.rows), repo.rows, claimed, heard)
        invariant heard || exists j :: 0 <= j < i && rounds[j].answer.Unheard?
        invariant TableOk(old(repo.rows)) ==> TableOk(repo.rows)
      {
        ghost var queue := jobs;
        ghost var before := repo.rows;
        var c, t, d, more := PollRound(rounds[i]);
        Splice(old(jobs), claimed, taken, queue, c, t, jobs, d);
        RoundTakes(cfg.workerId, before, repo.rows, c, !rounds[i].answer.Unheard?);
        TakenTwice(cfg.workerId, old(repo.rows), before, repo.rows, claimed, c, heard, !rounds[i].answer.Unheard?);
        heard := heard && !rounds[i].answer.Unheard?;
        claimed, taken, dropped, again := claimed + c, taken + t, d, more;
        i := i + 1;
      }
      WhatWasTaken(cfg.workerId, old(repo.rows), repo.rows, claimed, heard);
    }

    /** runJob: without its presigned URL a job with an object is not sent at all. */
    method RunJob(hasObject: bool, presigned: bool, replies: nat -> Processor.Reply, raws: nat -> nat, cancels: nat -> bool)
      returns (end: Ending, calls: nat)
      ensures calls == 0 <==> hasObject && !presigned
      ensures calls <= if cfg.maxRetries < 1 then 1 else cfg.maxRetries
      ensures end.Summary? <==>
        calls > 0 && replies(calls).Response? && replies(calls).status < 400 && replies(calls).decoded.Some?
      ensures end.Summary? ==> replies(calls).decoded == Some(end.text)
      ensures end.Trouble? && end.permanent <==>
        calls > 0 && (replies(calls).NotBuilt? ||
                      (replies(calls).Response? && 400 <= replies(calls).status < 500 && replies(calls).status != 429))
      ensures forall k: nat :: 1 <= k < calls ==> !cancels(k)
      ensures forall k: nat :: 1 <= k < calls ==>
        || replies(k).NoResponse?
        || (replies(k).Response? &&
            (replies(k).status >= 500 || replies(k).status == 429 || (replies(k).status < 400 && replies(k).decoded.None?)))
      ensures end.Trouble? && !end.permanent ==>
        calls == 0 || cancels(calls) || calls == if cfg.maxRetries < 1 then 1 else cfg.maxRetries
      ensures end.Crash? ==> cfg.maxRetries > 37
      ensures calls == RunCalls(cfg.maxRetries, hasObject, presigned, replies, cancels)
    {
      hide Processor.CanDraw;
      if hasObject && !presigned {
        return Trouble(false, "presign object"), 0;
      }
      var res, waits;
      res, calls, waits := Processor.Process(cfg.maxRetries, replies, raws, cancels);
      end := match res
        case Processed(summary) => Summary(summary)
        case GaveUp(permanent) => Trouble(permanent, "processor")
        case Cancelled => Trouble(false, "context canceled")
        case Panicked => Crash;
    }

    /** Permanent errors fail the job, all others reschedule it, unless its attempts
        are used up. A job that is no longer processing stays as it is. */
    method RecordFailure(job: Ticket, permanent: bool, message: string, now: Time)
      modifies repo
      ensures repo.rows.Keys == old(repo.rows).Keys && forall j :: j in repo.rows && j != job.id ==> repo.rows[j] == old(repo.rows)[j]
      ensures !(job.id in old(repo.rows) && old(repo.rows)[job.id].status == Processing) ==> repo.rows == old(repo.rows)
      ensures job.id in old(repo.rows) && old(repo.rows)[job.id].status == Processing ==>
        var r, t := old(repo.rows)[job.id], repo.rows[job.id];
        && (permanent || r.attempts >= cfg.maxAttempts ==> t == r.(
            status := Failed, error := message, leaseUntil := None, lockedBy := "", nextAttemptAt := None,
            completedAt := Some(now)))
        && (!permanent && r.attempts < cfg.maxAttempts ==> t == r.(
            status := Pending, error := message, leaseUntil := None, lockedBy := "", completedAt := None,
            nextAttemptAt := Some(now + Delay(r.attempts, cfg.base, cfg.cap))))
      ensures TableOk(old(repo.rows)) ==> TableOk(repo.rows)
    {
      hide Delay, TableOk;
      if permanent {
        var found := repo.Fail(job.id, message, now);
      } else {
        var res := repo.Retry(job.id, message, cfg.maxAttempts, cfg.base, cfg.cap, now);
      }
    }

    /** process: run the job, then make one outcome call, unless the database is
        down. */
    method Process(job: Ticket, hasObject: bool, presigned: bool, replies: nat -> Processor.Reply, raws: nat -> nat,
                   cancels: nat -> bool, down: bool, now: Time) returns (calls: nat)
      modifies repo
      ensures calls == 0 <==> hasObject && !presigned
      ensures calls <= if cfg.maxRetries < 1 then 1 else cfg.maxRetries
      ensures forall k: nat :: 1 <= k < calls ==> !cancels(k)
      ensures forall k: nat :: 1 <= k < calls ==>
        || replies(k).NoResponse?
        || (replies(k).Response? &&
            (replies(k).status >= 500 || replies(k).status == 429 || (replies(k).status < 400 && replies(k).decoded.None?)))
      ensures repo.rows.Keys == old(repo.rows).Keys && forall j :: j in repo.rows && j != job.id ==> repo.rows[j] == old(repo.rows)[j]
      ensures down || !(job.id in old(repo.rows) && old(repo.rows)[job.id].status == Processing) ==>
        repo.rows == old(repo.rows)
      ensures !down && cfg.maxRetries <= 37 && job.id in old(repo.rows) && old(repo.rows)[job.id].status == Processing ==>
        var r, t := old(repo.rows)[job.id], repo.rows[job.id];
        var answered := calls > 0 && replies(calls).Response?;
        var rejected := calls > 0 &&
          (replies(calls).NotBuilt? || (answered && 400 <= replies(calls).status < 500 && replies(calls).status != 429));
        && (t.status == Completed <==> answered && replies(calls).status < 400 && replies(calls).decoded.Some?)
        && (t.status == Completed ==> t == r.(
            status := Completed, result := replies(calls).decoded.value, error := "", leaseUntil := None,
            lockedBy := "", completedAt := Some(now)))
        && (t.status == Failed <==> t.status != Completed && (rejected || r.attempts >= cfg.maxAttempts))
        && (t.status == Failed ==> t == r.(
            status := Failed, error := t.error, leaseUntil := None, lockedBy := "", nextAttemptAt := None,
            completedAt := Some(now)))
        && (t.status == Pending <==> t.status != Completed && !rejected && r.attempts < cfg.maxAttempts)
        && (t.status == Pending ==> t == r.(
            status := Pending, error := t.error, leaseUntil := None, lockedBy := "", completedAt := None,
            nextAttemptAt := Some(now + Delay(r.attempts, cfg.base, cfg.cap))))
      ensures TableOk(old(repo.rows)) ==> TableOk(repo.rows)
      ensures calls == RunCalls(cfg.maxRetries, hasObject, presigned, replies, cancels)
    {
      hide TableOk, Delay, RunCalls;
      var end;
      end, calls := RunJob(hasObject, presigned, replies, raws, cancels);
      if down {
        return;
      }
      match end {
        case Summary(text) =>
          var found := repo.Complete(job.id, text, now);
        case Trouble(permanent, message) =>
          RecordFailure(job, permanent, message, now);
        case Crash =>
      }
    }

    /** releaseQueued: the last consumer empties the channel; `down(i)` says that
        the database cannot be reached for job i. A job that is still processing is
        due at once, or has failed if its attempts are used up; no other row
        changes. */
    method ReleaseQueued(now: Time, down: nat -> bool)
      modifies this`jobs, repo
      ensures jobs == [] && repo.rows.Keys == old(repo.rows).Keys
      ensures forall i :: 0 <= i < |old(jobs)| && !down(i) && old(jobs)[i].id in repo.rows ==>
        repo.rows[old(jobs)[i].id].status != Processing
      ensures forall id :: id in repo.rows && repo.rows[id] != old(repo.rows)[id] ==>
        && old(repo.rows)[id].status == Processing
        && (exists i :: 0 <= i < |old(jobs)| && old(jobs)[i].id == id)
        && repo.rows[id] == if old(repo.rows)[id].attempts < cfg.maxAttempts
          then old(repo.rows)[id].(status := Pending, error := "worker shutting down", leaseUntil := None,
                                   lockedBy := "", nextAttemptAt := Some(now), completedAt := None)
          else old(repo.rows)[id].(status := Failed, error := "worker shutting down", leaseUntil := None,
                                   lockedBy := "", nextAttemptAt := None, completedAt := Some(now))
      ensures TableOk(old(repo.rows)) ==> TableOk(repo.rows)
    {
      hide TableOk, RetryRow, Delay;
      var i := 0;
      while jobs != []
        invariant 0 <= i <= |old(jobs)| && jobs == old(jobs)[i..] && repo.rows.Keys == old(repo.rows).Keys
        invariant forall j :: 0 <= j < i && !down(j) && old(jobs)[j].id in repo.rows ==>
          repo.rows[old(jobs)[j].id].status != Processing
        invariant forall id :: id in repo.rows && repo.rows[id] != old(repo.rows)[id] ==>
          && old(repo.rows)[id].status == Processing && Queued(old(jobs), id)
          && repo.rows[id] == RetryRow(old(repo.rows)[id], "worker shutting down", cfg.maxAttempts, 0, 0, now)
          && repo.rows[id].status != Processing
        invariant TableOk(old(repo.rows)) ==> TableOk(repo.rows)
        decreases |jobs|
      {
        var job := jobs[0];
        assert job == old(jobs)[i];
        jobs := jobs[1..];
        if !down(i) {
          var res := repo.Retry(job.id, "worker shutting down", cfg.maxAttempts, 0, 0, now);
        }
        i := i + 1;
      }
      forall id | id in repo.rows && repo.rows[id] != old(repo.rows)[id]
        ensures repo.rows[id] == ReleasedRow(old(repo.rows)[id], cfg.maxAttempts, now)
      {
        RetryReleases(old(repo.rows)[id], cfg.maxAttempts, now);
      }
    }
  }

  predicate Queued(jobs: seq<Ticket>, id: JobId) {
    exists i :: 0 <= i < |jobs| && jobs[i].id == id
  }

  /** From `a` to `b` only pending rows changed, into rows this worker processes,
      and `ts` lists claimed ones among them: all of them, when every answer was
      heard. */
  ghost predicate Taken(worker: string, a: Table, b: Table, ts: seq<Ticket>, heard: bool) {
    && a.Keys == b.Keys
    && (forall id :: id in b && b[id] != a[id] ==> IsTaken(worker, a[id], b[id]) && (heard ==> Queued(ts, id)))
    && (forall t :: t in ts ==> t.id in b && b[t.id] != a[t.id] && b[t.id].attempts == t.attempt)
  }

  predicate IsTaken(worker: string, r: Row, t: Row) {
    && r.status == Pending && t.status == Processing && t.attempts == r.attempts + 1
    && t.lockedBy == worker && t.leaseUntil != None && t.sub == r.sub
  }

  lemma WhatWasTaken(worker: string, a: Table, b: Table, ts: seq<Ticket>, heard: bool)
    requires Taken(worker, a, b, ts, heard)
    ensures a.Keys == b.Keys
    ensures forall t :: t in ts ==> t.id in b && b[t.id] != a[t.id] && b[t.id].attempts == t.attempt
    ensures forall id :: id in b && b[id] != a[id] ==>
      && a[id].status == Pending && b[id].status == Processing && b[id].attempts == a[id].attempts + 1
      && b[id].lockedBy == worker && b[id].leaseUntil != None && b[id].sub == a[id].sub
    ensures heard ==> forall id :: id in b && b[id] != a[id] ==> Queued(ts, id)
  {
    hide Queued;
  }

  lemma RoundTakes(worker: string, a: Table, b: Table, ts: seq<Ticket>, heard: bool)
    requires a.Keys == b.Keys
    requires forall t :: t in ts ==> t.id in b && b[t.id] != a[t.id] && b[t.id].attempts == t.attempt
    requires forall id :: id in b && b[id] != a[id] ==>
      && a[id].status == Pending && b[id].status == Processing && b[id].attempts == a[id].attempts + 1
      && b[id].lockedBy == worker && b[id].leaseUntil != None && b[id].sub == a[id].sub
    requires heard ==> forall id :: id in b && b[id] != a[id] ==> Queued(ts, id)
    ensures Taken(worker, a, b, ts, heard)
  {
    hide Queued;
  }

  /** What was taken first is processing, so that what is taken next is apart. */
  lemma TakenTwice(worker: string, a: Table, b: Table, c: Table, ts: seq<Ticket>, us: seq<Ticket>, h: bool, h': bool)
    requires Taken(worker, a, b, ts, h) && Taken(worker, b, c, us, h')
    ensures Taken(worker, a, c, ts + us, h && h')
  {
    QueuedInEither(ts, us);
    hide Queued;
  }

  lemma QueuedInEither(a: seq<Ticket>, b: seq<Ticket>)
    ensures forall id :: Queued(a + b, id) <==> Queued(a, id) || Queued(b, id)
  {
    forall id ensures Queued(a + b, id) <==> Queued(a, id) || Queued(b, id) {
      if i :| 0 <= i < |b| && b[i].id == id {
        assert (a + b)[|a| + i].id == id;
      }
      if i :| 0 <= i < |a| && a[i].id == id {
        assert (a + b)[i].id == id;
      }
    }
  }

  lemma Splice(q0: seq<Ticket>, cs: seq<Ticket>, ts: seq<Ticket>, q: seq<Ticket>, c: seq<Ticket>, t: seq<Ticket>,
               q': seq<Ticket>, d: seq<Ticket>)
    requires ts + q + [] == q0 + cs && t + q' + d == q + c
    ensures (ts + t) + q' + d == q0 + (cs + c)
  {
    assert (ts + t) + q' + d == ts + (t + q' + d);
    assert ts + (q + c) == (ts + q + []) + c;
  }

  /** The tickets of a claim are all processing and apart. */
  lemma ClaimFits(rows: Table, ids: seq<JobId>)
    requires forall id :: id in ids ==> id in rows && rows[id].status == Processing
    requires forall i, j :: 0 <= i < j < |ids| ==> ids[i] != ids[j]
    ensures forall x :: x in Claimed(rows, ids) ==> x.id in ids && rows[x.id].attempts == x.attempt
    ensures var ts := Claimed(rows, ids); forall i, j :: 0 <= i < j < |ts| ==> ts[i].id != ts[j].id
    ensures forall id :: Queued(Claimed(rows, ids), id) <==> id in ids
  {
    var ts := Claimed(rows, ids);
    forall id ensures Queued(ts, id) <==> id in ids {
      if i :| 0 <= i < |ids| && ids[i] == id {
        assert ts[i].id == id;
      }
    }
  }

  /** The rows a claim took are those it changed: their attempts went up. */
  lemma Touched(before: Table, after: Table, ids: seq<JobId>)
    requires before.Keys == after.Keys
    requires forall id :: id in ids ==> id in before && after[id].attempts == before[id].attempts + 1
    requires forall id :: id in after && id !in ids ==> after[id] == before[id]
    ensures (set id | id in after && after[id] != before[id]) == Elements(ids)
    ensures forall id :: id in Elements(ids) <==> id in ids
  {
  }
}
