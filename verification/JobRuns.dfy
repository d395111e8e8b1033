/** Whole runs of the job queue: any number of workers, stale ones included,
    claim, extend, complete, retry and fail jobs while reapers requeue expired
    ones. None of the statements checks who owns a row. */
module JobRuns {
  import opened Prelude
  import opened JobTable

  /** MAX_ATTEMPTS, and how often one processing run may call the processor. */
  datatype Params = Params(maxAttempts: nat, maxCalls: nat) {
    predicate Valid() { maxAttempts >= 1 && maxCalls >= 1 }
  }

  type Tx = nat

  /** A claim as ClaimBatch returned it: the job and the attempt it starts. */
  datatype Ticket = Ticket(id: JobId, attempt: nat)

  /** `locks` are the rows claims in progress have locked; `issued` the tickets
      handed out so far; `calls` what became of those that were processed. */
  datatype World = World(rows: Table, locks: map<Tx, set<JobId>>, issued: set<Ticket>, calls: map<Ticket, nat>)

  /** A claim is two steps: the locking SELECT, and the UPDATE that commits or
      rolls back. All other statements are one. */
  datatype Action =
    | Insert(id: JobId, sub: Submission)
    | BeginClaim(tx: Tx, now: Time, limit: nat, chosen: set<JobId>)
    | CommitClaim(tx: Tx, worker: string, until: Time)
    | RollbackClaim(tx: Tx)
    | Process(ticket: Ticket, n: nat)
    | Extend(id: JobId, until: Time)
    | Complete(id: JobId, summary: string, now: Time)
    | Retry(id: JobId, message: string, base: int, cap: int, now: Time)
    | Fail(id: JobId, message: string, now: Time)
    | Reap(now: Time)

  function Locked(locks: map<Tx, set<JobId>>): set<JobId> {
    set tx, id | tx in locks && id in locks[tx] :: id
  }

  function TicketsOf(rows: Table, chosen: set<JobId>): set<Ticket> {
    set id | id in chosen && id in rows :: Ticket(id, rows[id].attempts + 1)
  }

  /** That a ticket is processed once at most, and with a bounded number of calls,
      is what Fleet proves of the worker processes. */
  ghost predicate Enabled(p: Params, w: World, a: Action) {
    match a
    case Insert(id, sub) => Insertable(w.rows, id, sub.key)
    case BeginClaim(tx, now, limit, chosen) => tx !in w.locks && OldestDue(w.rows, now, Locked(w.locks), limit, chosen)
    case CommitClaim(tx, _, _) => tx in w.locks
    case RollbackClaim(tx) => tx in w.locks
    case Process(t, n) => t in w.issued && t !in w.calls && n <= p.maxCalls
    case _ => true
  }

  function NextRows(p: Params, w: World, a: Action): Table {
    match a
    case Insert(id, sub) => w.rows[id := NewRow(sub)]
    case CommitClaim(tx, worker, until) => if tx in w.locks then ClaimAll(w.rows, w.locks[tx], worker, until) else w.rows
    case Extend(id, until) => if Hits(w.rows, id) then w.rows[id := ExtendRow(w.rows[id], until)] else w.rows
    case Complete(id, summary, now) => if Hits(w.rows, id) then w.rows[id := CompleteRow(w.rows[id], summary, now)] else w.rows
    case Retry(id, message, base, cap, now) =>
      if Hits(w.rows, id) then w.rows[id := RetryRow(w.rows[id], message, p.maxAttempts, base, cap, now)] else w.rows
    case Fail(id, message, now) => if Hits(w.rows, id) then w.rows[id := FailRow(w.rows[id], message, now)] else w.rows
    case Reap(now) => ReapAll(w.rows, now)
    case _ => w.rows
  }

  function Next(p: Params, w: World, a: Action): World {
    World(
      NextRows(p, w, a),
      match a
      case BeginClaim(tx, _, _, chosen) => w.locks[tx := chosen]
      case CommitClaim(tx, _, _) => w.locks - {tx}
      case RollbackClaim(tx) => w.locks - {tx}
      case _ => w.locks,
      w.issued + IssuedBy(w, a),
      if a.Process? then w.calls[a.ticket := a.n] else w.calls)
  }

  /** The claims a step returns to its worker. */
  function IssuedBy(w: World, a: Action): set<Ticket> {
    if a.CommitClaim? && a.tx in w.locks then TicketsOf(w.rows, w.locks[a.tx]) else {}
  }

  ghost predicate IsRun(p: Params, w: World, run: seq<Action>, t: World)
    decreases |run|
  {
    if run == [] then w == t
    else Enabled(p, w, run[0]) && IsRun(p, Next(p, w, run[0]), run[1..], t)
  }

  const Empty := World(map[], map[], {}, map[])

  // ---- what a step does to one job ---------------------------------------

  datatype Effect = Nothing | Claimed | Postponed | Reaped | Finished

  function EffectOn(p: Params, w: World, a: Action, id: JobId): Effect {
    match a
    case CommitClaim(tx, _, _) => if tx in w.locks && id in w.locks[tx] && id in w.rows then Claimed else Nothing
    case Complete(j, _, _) => if j == id && Hits(w.rows, id) then Finished else Nothing
    case Fail(j, _, _) => if j == id && Hits(w.rows, id) then Finished else Nothing
    case Retry(j, _, _, _, _) =>
      if !(j == id && Hits(w.rows, id)) then Nothing
      else if w.rows[id].attempts >= p.maxAttempts then Finished else Postponed
    case Reap(now) => if id in w.rows && Expired(w.rows[id], now) then Reaped else Nothing
    case _ => Nothing
  }

  /** How many steps of the run had effect `e` on job `id`. */
  function Count(p: Params, w: World, run: seq<Action>, id: JobId, e: Effect): nat
    decreases |run|
  {
    if run == [] then 0
    else (if EffectOn(p, w, run[0], id) == e then 1 else 0) + Count(p, Next(p, w, run[0]), run[1..], id, e)
  }

  // ---- the invariant -----------------------------------------------------

  /** Rows locked by a claim in progress are pending, and no two claims share
      one. */
  ghost predicate LocksOk(w: World) {
    && (forall tx, id :: tx in w.locks && id in w.locks[tx] ==> id in w.rows && w.rows[id].status.Pending?)
    && (forall tx, tx' :: tx in w.locks && tx' in w.locks && tx != tx' ==> w.locks[tx] !! w.locks[tx'])
  }

  /** A ticket names an attempt that has been counted. */
  ghost predicate TicketsOk(p: Params, w: World) {
    && (forall t :: t in w.issued ==> t.id in w.rows && 1 <= t.attempt <= w.rows[t.id].attempts)
    && (forall t :: t in w.calls ==> t in w.issued && w.calls[t] <= p.maxCalls)
  }

  ghost predicate Inv(p: Params, w: World) {
    TableOk(w.rows) && LocksOk(w) && TicketsOk(p, w)
  }

  lemma LockedMember(locks: map<Tx, set<JobId>>, tx: Tx, id: JobId)
    requires tx in locks && id in locks[tx]
    ensures id in Locked(locks)
  {
  }

  /** No statement deletes a row or changes what its insert fixed. */
  lemma RowsKeepTheirSubmission(p: Params, w: World, a: Action)
    ensures forall id :: id in w.rows && !(a.Insert? && a.id == id) ==>
      id in NextRows(p, w, a) && NextRows(p, w, a)[id].sub == w.rows[id].sub
    ensures NextRows(p, w, a).Keys == w.rows.Keys + if a.Insert? then {a.id} else {}
  {
    hide Delay;
  }

  lemma StepKeepsKeysUnique(p: Params, w: World, a: Action)
    requires KeysUnique(w.rows) && (a.Insert? ==> Insertable(w.rows, a.id, a.sub.key))
    ensures KeysUnique(NextRows(p, w, a))
  {
    RowsKeepTheirSubmission(p, w, a);
    if a.Insert? {
    } else {
      hide NextRows;
    }
  }

  lemma StepKeepsRowsOk(p: Params, w: World, a: Action)
    requires (forall id :: id in w.rows ==> RowOk(w.rows[id])) && LocksOk(w)
    ensures forall id :: id in NextRows(p, w, a) ==> RowOk(NextRows(p, w, a)[id])
  {
    hide Delay;
  }

  lemma StepKeepsTableOk(p: Params, w: World, a: Action)
    requires TableOk(w.rows) && LocksOk(w) && Enabled(p, w, a)
    ensures TableOk(NextRows(p, w, a))
  {
    hide KeysUnique, LocksOk, NextRows, OldestDue, RowOk;
    StepKeepsRowsOk(p, w, a);
    StepKeepsKeysUnique(p, w, a);
  }

  lemma BeginKeepsLocksOk(p: Params, w: World, a: Action)
    requires LocksOk(w) && Enabled(p, w, a) && a.BeginClaim?
    ensures LocksOk(Next(p, w, a))
  {
    hide Locked;
    var t := Next(p, w, a);
    forall tx, id | tx in w.locks && id in w.locks[tx] ensures id !in a.chosen {
      LockedMember(w.locks, tx, id);
    }
  }

  lemma StepKeepsLocksOk(p: Params, w: World, a: Action)
    requires LocksOk(w) && Enabled(p, w, a)
    ensures LocksOk(Next(p, w, a))
  {
    hide OldestDue, Locked, Delay;
    if a.BeginClaim? {
      BeginKeepsLocksOk(p, w, a);
    }
  }

  lemma AttemptsNeverDrop(p: Params, w: World, a: Action)
    ensures forall id :: id in w.rows && !(a.Insert? && a.id == id) ==>
      id in NextRows(p, w, a) && w.rows[id].attempts <= NextRows(p, w, a)[id].attempts
  {
    hide Delay;
  }

  lemma StepKeepsTicketsOk(p: Params, w: World, a: Action)
    requires TicketsOk(p, w) && Enabled(p, w, a)
    ensures TicketsOk(p, Next(p, w, a))
  {
    hide OldestDue, Locked, Delay;
    AttemptsNeverDrop(p, w, a);
  }

  lemma StepKeepsInv(p: Params, w: World, a: Action)
    requires Inv(p, w) && Enabled(p, w, a)
    ensures Inv(p, Next(p, w, a))
  {
    hide TableOk, LocksOk, TicketsOk, Enabled;
    StepKeepsTableOk(p, w, a);
    StepKeepsLocksOk(p, w, a);
    StepKeepsTicketsOk(p, w, a);
  }

  /** Over every run: the columns of every row agree with its status, keys are
      unique, and claims in progress hold disjoint sets of pending rows. */
  lemma {:induction false} RunKeepsInv(p: Params, w: World, run: seq<Action>, t: World)
    requires Inv(p, w) && IsRun(p, w, run, t)
    ensures Inv(p, t)
    decreases |run|
  {
    hide Inv, Enabled, Next;
    if run != [] {
      StepKeepsInv(p, w, run[0]);
      RunKeepsInv(p, Next(p, w, run[0]), run[1..], t);
    }
  }

  lemma EmptyHasInv(p: Params)
    ensures Inv(p, Empty)
  {
  }

  // ---- accounting --------------------------------------------------------

  function Attempts(w: World, id: JobId): nat {
    if id in w.rows then w.rows[id].attempts else 0
  }

  function InProgress(w: World, id: JobId): nat {
    if id in w.rows && w.rows[id].status.Processing? then 1 else 0
  }

  function Ended(w: World, id: JobId): nat {
    if id in w.rows && w.rows[id].Terminal() then 1 else 0
  }

  function One(b: bool): nat { if b then 1 else 0 }

  /** Claims are what attempts count, a claim starts processing, and the three
      other effects end it. */
  lemma StepAccounts(p: Params, w: World, a: Action, id: JobId)
    requires LocksOk(w) && Enabled(p, w, a)
    ensures
      var t, e := Next(p, w, a), EffectOn(p, w, a, id);
      && Attempts(t, id) == Attempts(w, id) + One(e.Claimed?)
      && InProgress(t, id) + One(e.Postponed?) + One(e.Reaped?) + One(e.Finished?) == InProgress(w, id) + One(e.Claimed?)
      && Ended(t, id) == Ended(w, id) + One(e.Finished?)
  {
    hide Delay, OldestDue, Locked;
    if a.CommitClaim? && id in w.rows {
      assert id in w.locks[a.tx] ==> w.rows[id].status.Pending?;
    }
  }

  lemma {:induction false} RunAccounts(p: Params, w: World, run: seq<Action>, t: World, id: JobId)
    requires Inv(p, w) && IsRun(p, w, run, t)
    ensures Attempts(t, id) == Attempts(w, id) + Count(p, w, run, id, Claimed)
    ensures InProgress(t, id) + Count(p, w, run, id, Postponed) + Count(p, w, run, id, Reaped) + Count(p, w, run, id, Finished)
         == InProgress(w, id) + Count(p, w, run, id, Claimed)
    ensures Ended(t, id) == Ended(w, id) + Count(p, w, run, id, Finished)
    decreases |run|
  {
    hide Enabled, Next, EffectOn, TableOk, TicketsOk;
    if run != [] {
      StepAccounts(p, w, run[0], id);
      StepKeepsInv(p, w, run[0]);
      RunAccounts(p, Next(p, w, run[0]), run[1..], t, id);
    }
  }

  /** Over every run of the whole system, for every job: attempts = claims =
      reschedules + reaps + (1 if terminal) + (1 if processing), and a job ends
      at most once, however many stale workers report on it. */
  lemma AttemptsAreAccounted(p: Params, run: seq<Action>, t: World, id: JobId)
    requires IsRun(p, Empty, run, t)
    ensures Count(p, Empty, run, id, Claimed) == if id in t.rows then t.rows[id].attempts else 0
    ensures Count(p, Empty, run, id, Claimed) == Count(p, Empty, run, id, Postponed) + Count(p, Empty, run, id, Reaped)
      + Count(p, Empty, run, id, Finished) + if id in t.rows && t.rows[id].status == Processing then 1 else 0
    ensures Count(p, Empty, run, id, Finished) ==
      if id in t.rows && (t.rows[id].status == Completed || t.rows[id].status == Failed) then 1 else 0
  {
    EmptyHasInv(p);
    hide Inv, IsRun, Count;
    RunAccounts(p, Empty, run, t, id);
  }

  /** A reap that ReapExpired would not make if it looked at the attempts. */
  predicate OverReap(p: Params, w: World, a: Action, id: JobId) {
    EffectOn(p, w, a, id).Reaped? && Attempts(w, id) >= p.maxAttempts
  }

  /** How often the run reaped job `id` when its attempts were used up. */
  function OverReaps(p: Params, w: World, run: seq<Action>, id: JobId): nat
    decreases |run|
  {
    if run == [] then 0
    else One(OverReap(p, w, run[0], id)) + OverReaps(p, Next(p, w, run[0]), run[1..], id)
  }

  /** A job's attempts after `over` such reaps: up to the limit without one, and
      exactly as far beyond it as there were. A pending job is one claim behind. */
  ghost predicate Within(p: Params, w: World, id: JobId, over: nat) {
    if id !in w.rows then over == 0
    else
      var claimed := w.rows[id].attempts + One(w.rows[id].status.Pending?);
      if over == 0 then claimed <= p.maxAttempts else claimed == p.maxAttempts + over
  }

  lemma StepKeepsWithin(p: Params, w: World, a: Action, id: JobId, over: nat)
    requires p.Valid() && LocksOk(w) && Enabled(p, w, a) && Within(p, w, id, over)
    ensures Within(p, Next(p, w, a), id, over + One(OverReap(p, w, a, id)))
  {
    hide Delay, OldestDue, Locked;
    if a.CommitClaim? && id in w.rows {
      assert id in w.locks[a.tx] ==> w.rows[id].status.Pending?;
    }
  }

  lemma {:induction false} RunKeepsWithin(p: Params, w: World, run: seq<Action>, t: World, id: JobId, over: nat)
    requires p.Valid() && Inv(p, w) && IsRun(p, w, run, t) && Within(p, w, id, over)
    ensures Within(p, t, id, over + OverReaps(p, w, run, id))
    decreases |run|
  {
    hide Enabled, Next, OverReap, TableOk, TicketsOk, Within;
    if run != [] {
      StepKeepsWithin(p, w, run[0], id, over);
      StepKeepsInv(p, w, run[0]);
      RunKeepsWithin(p, Next(p, w, run[0]), run[1..], t, id, over + One(OverReap(p, w, run[0], id)));
    }
  }

  /** MAX_ATTEMPTS bounds a job's attempts exactly as long as no reaper has requeued
      it with its attempts used up: every such reap, and no other, adds one. A
      pending job is bounded by one less. */
  lemma AttemptsAreBounded(p: Params, run: seq<Action>, t: World, id: JobId)
    requires p.Valid() && IsRun(p, Empty, run, t) && id in t.rows
    ensures t.rows[id].status != Pending ==> (t.rows[id].attempts <= p.maxAttempts <==> OverReaps(p, Empty, run, id) == 0)
    ensures t.rows[id].status == Pending ==> (t.rows[id].attempts < p.maxAttempts <==> OverReaps(p, Empty, run, id) == 0)
    ensures OverReaps(p, Empty, run, id) > 0 ==>
      t.rows[id].attempts == p.maxAttempts + OverReaps(p, Empty, run, id) - if t.rows[id].status == Pending then 1 else 0
  {
    EmptyHasInv(p);
    hide IsRun, OverReaps;
    RunKeepsWithin(p, Empty, run, t, id, 0);
  }

  lemma {:induction false} OverReapsAreReaps(p: Params, w: World, run: seq<Action>, id: JobId)
    ensures OverReaps(p, w, run, id) <= Count(p, w, run, id, Reaped)
    decreases |run|
  {
    if run != [] {
      hide EffectOn, Attempts, Next;
      OverReapsAreReaps(p, Next(p, w, run[0]), run[1..], id);
    }
  }

  /** Hence a bound on the attempts, and on the claim and exit steps over a job's
      life. */
  lemma LifetimeSteps(p: Params, run: seq<Action>, t: World, id: JobId)
    requires p.Valid() && IsRun(p, Empty, run, t)
    ensures Attempts(t, id) <= p.maxAttempts + OverReaps(p, Empty, run, id) <= p.maxAttempts + Count(p, Empty, run, id, Reaped)
    ensures Count(p, Empty, run, id, Claimed) + Count(p, Empty, run, id, Postponed)
            + Count(p, Empty, run, id, Reaped) + Count(p, Empty, run, id, Finished)
         <= 2 * (p.maxAttempts + OverReaps(p, Empty, run, id))
  {
    if id in t.rows {
      hide IsRun, OverReaps, Count;
      AttemptsAreBounded(p, run, t, id);
    }
    hide IsRun, OverReaps, Count;
    OverReapsAreReaps(p, Empty, run, id);
    AttemptsAreAccounted(p, run, t, id);
  }

  // ---- tickets -----------------------------------------------------------

  /** A commit hands out tickets nobody has held before. */
  lemma IssuedIsNew(p: Params, w: World, a: Action)
    requires TicketsOk(p, w)
    ensures IssuedBy(w, a) !! w.issued
  {
  }

  lemma {:induction false} IssuedForEver(p: Params, w: World, run: seq<Action>, t: World)
    requires IsRun(p, w, run, t)
    ensures w.issued <= t.issued
    decreases |run|
  {
    hide Enabled;
    if run != [] {
      IssuedForEver(p, Next(p, w, run[0]), run[1..], t);
    }
  }

  /** No two claims of a run return the same job for the same attempt. */
  lemma ClaimsNeverRepeat(p: Params, w: World, a: Action, run: seq<Action>, t: World, b: Action)
    requires Inv(p, w) && Enabled(p, w, a) && IsRun(p, Next(p, w, a), run, t)
    ensures IssuedBy(w, a) !! IssuedBy(t, b)
  {
    StepKeepsInv(p, w, a);
    hide Inv, Enabled, IsRun, IssuedBy;
    RunKeepsInv(p, Next(p, w, a), run, t);
    IssuedForEver(p, Next(p, w, a), run, t);
    IssuedIsNew(p, t, b);
  }

  /** External calls made on behalf of the first `k` attempts of a job. */
  function CallsUpTo(calls: map<Ticket, nat>, id: JobId, k: nat): nat {
    if k == 0 then 0
    else CallsUpTo(calls, id, k - 1) + if Ticket(id, k) in calls then calls[Ticket(id, k)] else 0
  }

  lemma {:induction false} CallsAreFew(p: Params, w: World, id: JobId, k: nat)
    requires TicketsOk(p, w)
    ensures CallsUpTo(w.calls, id, k) <= k * p.maxCalls
  {
    if k > 0 {
      CallsAreFew(p, w, id, k - 1);
      assert k * p.maxCalls == (k - 1) * p.maxCalls + p.maxCalls;
    }
  }

  lemma CallsAreCounted(p: Params, t: World, id: JobId)
    requires Inv(p, t)
    ensures forall c :: c in t.calls && c.id == id ==> 1 <= c.attempt <= Attempts(t, id) && t.calls[c] <= p.maxCalls
    ensures CallsUpTo(t.calls, id, Attempts(t, id)) <= Attempts(t, id) * p.maxCalls
  {
    hide TableOk, LocksOk, CallsUpTo;
    CallsAreFew(p, t, id, Attempts(t, id));
  }

  lemma CallsScale(k: nat, n: nat, m: nat)
    requires k <= n
    ensures k * m <= n * m
  {
  }

  /** Over its whole life a job costs at most maxCalls calls for each attempt that
      MAX_ATTEMPTS grants, and for each reap once those were used up. */
  lemma LifetimeCalls(p: Params, run: seq<Action>, t: World, id: JobId)
    requires p.Valid() && IsRun(p, Empty, run, t)
    ensures forall c :: c in t.calls && c.id == id ==>
      id in t.rows && 1 <= c.attempt <= t.rows[id].attempts && t.calls[c] <= p.maxCalls
    ensures id in t.rows ==> t.rows[id].attempts <= p.maxAttempts + OverReaps(p, Empty, run, id)
    ensures CallsUpTo(t.calls, id, Attempts(t, id)) <= (p.maxAttempts + OverReaps(p, Empty, run, id)) * p.maxCalls
  {
    hide *;
    EmptyHasInv(p);
    RunKeepsInv(p, Empty, run, t);
    CallsAreCounted(p, t, id);
    AttemptsOf(t, id);
    LifetimeSteps(p, run, t, id);
    CallsScale(Attempts(t, id), p.maxAttempts + OverReaps(p, Empty, run, id), p.maxCalls);
  }

  // ---- rows that do not move ---------------------------------------------

  /** A job that has ended never changes again. */
  lemma StepKeepsEnded(p: Params, w: World, a: Action, id: JobId)
    requires LocksOk(w) && Enabled(p, w, a) && id in w.rows && w.rows[id].Terminal()
    ensures id in Next(p, w, a).rows && Next(p, w, a).rows[id] == w.rows[id]
  {
    hide Delay, OldestDue, Locked;
  }

  lemma {:induction false} EndedForEver(p: Params, w: World, run: seq<Action>, t: World, id: JobId)
    requires Inv(p, w) && IsRun(p, w, run, t)
    requires id in w.rows && (w.rows[id].status == Completed || w.rows[id].status == Failed)
    ensures id in t.rows && t.rows[id] == w.rows[id]
    decreases |run|
  {
    hide Enabled, Next, TableOk, TicketsOk;
    if run != [] {
      StepKeepsEnded(p, w, run[0], id);
      StepKeepsInv(p, w, run[0]);
      EndedForEver(p, Next(p, w, run[0]), run[1..], t, id);
    }
  }

  lemma StepKeepsPending(p: Params, w: World, a: Action, id: JobId)
    requires LocksOk(w) && Enabled(p, w, a) && id in w.rows && w.rows[id].status.Pending?
    requires !EffectOn(p, w, a, id).Claimed?
    ensures id in Next(p, w, a).rows && Next(p, w, a).rows[id] == w.rows[id]
  {
    hide Delay, OldestDue, Locked;
  }

  /** A pending row stays exactly as it is until a claim takes it. */
  lemma {:induction false} PendingUntilClaimed(p: Params, w: World, run: seq<Action>, t: World, id: JobId)
    requires Inv(p, w) && IsRun(p, w, run, t) && id in w.rows && w.rows[id].status.Pending?
    requires Count(p, w, run, id, Claimed) == 0
    ensures id in t.rows && t.rows[id] == w.rows[id]
    decreases |run|
  {
    hide Enabled, Next, TableOk, TicketsOk, EffectOn;
    if run != [] {
      StepKeepsPending(p, w, run[0], id);
      StepKeepsInv(p, w, run[0]);
      PendingUntilClaimed(p, Next(p, w, run[0]), run[1..], t, id);
    }
  }

  /** No claim selects a job before the time its last retry set. */
  lemma NotClaimedEarly(p: Params, w: World, retry: Action, run: seq<Action>, t: World, claim: Action)
    requires p.Valid() && Inv(p, w) && retry.Retry? && retry.id in w.rows
    requires w.rows[retry.id].status == Processing && w.rows[retry.id].attempts < p.maxAttempts
    requires IsRun(p, Next(p, w, retry), run, t) && Count(p, Next(p, w, retry), run, retry.id, Claimed) == 0
    requires Enabled(p, t, claim) && claim.BeginClaim? && retry.id in claim.chosen
    ensures claim.now >= retry.now + Delay(w.rows[retry.id].attempts, retry.base, retry.cap)
  {
    var id := retry.id;
    StepKeepsInv(p, w, retry);
    RetrySetsDue(p, w, retry);
    ClaimIsDue(p, t, claim, id);
    hide Delay, Inv, IsRun, Count, Enabled, Next, EffectOn;
    PendingUntilClaimed(p, Next(p, w, retry), run, t, id);
  }

  lemma RetrySetsDue(p: Params, w: World, retry: Action)
    requires retry.Retry? && retry.id in w.rows
    requires w.rows[retry.id].status == Processing && w.rows[retry.id].attempts < p.maxAttempts
    ensures var t := Next(p, w, retry);
      && retry.id in t.rows && t.rows[retry.id].status.Pending? && Waiting(t, retry.id)
      && t.rows[retry.id].nextAttemptAt == Some(retry.now + Delay(w.rows[retry.id].attempts, retry.base, retry.cap))
  {
    hide Delay;
  }

  lemma ClaimIsDue(p: Params, w: World, claim: Action, id: JobId)
    requires Enabled(p, w, claim) && claim.BeginClaim? && id in claim.chosen
    ensures id in w.rows && Due(w.rows[id], claim.now)
  {
    hide Locked, NotAfter;
  }

  /** From one reschedule of a job to its next the delay never shrinks, with the
      same configured base and maximum. (Shutdown releases pass zero for both.) */
  lemma DelaysNeverShrink(p: Params, w: World, first: Action, run: seq<Action>, t: World, second: Action)
    requires p.Valid() && Inv(p, w) && first.Retry? && second.Retry? && second.id == first.id
    requires first.base == second.base >= 0 && first.cap == second.cap
    requires first.id in w.rows && w.rows[first.id].status == Processing && w.rows[first.id].attempts < p.maxAttempts
    requires IsRun(p, Next(p, w, first), run, t)
    requires first.id in t.rows && t.rows[first.id].status == Processing && t.rows[first.id].attempts < p.maxAttempts
    ensures w.rows[first.id].attempts < t.rows[first.id].attempts
    ensures Waiting(Next(p, w, first), first.id) && Waiting(Next(p, t, second), first.id)
    ensures Next(p, w, first).rows[first.id].nextAttemptAt.value - first.now
         <= Next(p, t, second).rows[first.id].nextAttemptAt.value - second.now
  {
    var id := first.id;
    PostponedIsBusy(p, w, first);
    PostponedIsBusy(p, t, second);
    RetrySetsDue(p, w, first);
    RetrySetsDue(p, t, second);
    hide *;
    StepKeepsInv(p, w, first);
    InvHasLocksOk(p, w);
    StepAccounts(p, w, first, id);
    RunAccounts(p, Next(p, w, first), run, t, id);
    DelayGrows(w.rows[id].attempts, t.rows[id].attempts, first.base, first.cap);
  }

  /** What two reschedules of a job with one claim between them write: the second
      delay is twice the first, up to the maximum, and the delay after the first
      attempt is the base. */
  lemma DelaysDouble(p: Params, before: seq<Action>, w: World, first: Action, run: seq<Action>, t: World, second: Action)
    requires p.Valid() && IsRun(p, Empty, before, w) && first.Retry? && second.Retry? && second.id == first.id
    requires first.base == second.base >= 0 && first.cap == second.cap >= 0
    requires first.id in w.rows && w.rows[first.id].status == Processing && w.rows[first.id].attempts < p.maxAttempts
    requires IsRun(p, Next(p, w, first), run, t) && Count(p, Next(p, w, first), run, first.id, Claimed) == 1
    requires first.id in t.rows && t.rows[first.id].status == Processing && t.rows[first.id].attempts < p.maxAttempts
    ensures Waiting(Next(p, w, first), first.id) && Waiting(Next(p, t, second), first.id)
    ensures
      var wait := Next(p, w, first).rows[first.id].nextAttemptAt.value - first.now;
      var wait' := Next(p, t, second).rows[first.id].nextAttemptAt.value - second.now;
      && wait' == (if 2 * wait <= first.cap then 2 * wait else first.cap)
      && (w.rows[first.id].attempts == 1 ==> wait == if first.base <= first.cap then first.base else first.cap)
  {
    hide *;
    RetrySetsDue(p, w, first);
    RetrySetsDue(p, t, second);
    OneClaimBetween(p, before, w, first, run, t);
    DelayDoubles(w.rows[first.id].attempts, first.base, first.cap);
  }

  lemma OneClaimBetween(p: Params, before: seq<Action>, w: World, first: Action, run: seq<Action>, t: World)
    requires IsRun(p, Empty, before, w) && first.Retry? && first.id in w.rows
    requires w.rows[first.id].status == Processing && w.rows[first.id].attempts < p.maxAttempts
    requires IsRun(p, Next(p, w, first), run, t) && Count(p, Next(p, w, first), run, first.id, Claimed) == 1
    ensures w.rows[first.id].attempts >= 1
    ensures first.id in t.rows ==> t.rows[first.id].attempts == w.rows[first.id].attempts + 1
  {
    var id := first.id;
    PostponedIsBusy(p, w, first);
    EmptyHasInv(p);
    AttemptsOf(t, id);
    hide *;
    RunKeepsInv(p, Empty, before, w);
    StepKeepsInv(p, w, first);
    InvHasLocksOk(p, w);
    StepAccounts(p, w, first, id);
    RunAccounts(p, Next(p, w, first), run, t, id);
    AttemptsAreAccounted(p, before, w, id);
  }

  lemma AttemptsOf(w: World, id: JobId)
    ensures Attempts(w, id) == if id in w.rows then w.rows[id].attempts else 0
  {
  }

  lemma InvHasLocksOk(p: Params, w: World)
    requires Inv(p, w)
    ensures LocksOk(w)
  {
  }

  predicate Waiting(w: World, id: JobId) {
    id in w.rows && w.rows[id].nextAttemptAt.Some?
  }

  lemma PostponedIsBusy(p: Params, w: World, a: Action)
    requires a.Retry? && a.id in w.rows && w.rows[a.id].status == Processing && w.rows[a.id].attempts < p.maxAttempts
    ensures EffectOn(p, w, a, a.id).Postponed? && InProgress(w, a.id) == 1 && Attempts(w, a.id) == w.rows[a.id].attempts
    ensures Enabled(p, w, a) && One(EffectOn(p, w, a, a.id).Claimed?) == 0
  {
    hide Delay;
  }

  // ---- claims in progress ------------------------------------------------

  lemma StepKeepsLocked(p: Params, w: World, a: Action, tx: Tx, id: JobId)
    requires LocksOk(w) && Enabled(p, w, a) && tx in w.locks && id in w.locks[tx] && tx in Next(p, w, a).locks
    ensures Next(p, w, a).locks[tx] == w.locks[tx]
    ensures id in Next(p, w, a).rows && Next(p, w, a).rows[id] == w.rows[id]
  {
    hide Delay, OldestDue, Locked;
  }

  predicate Closes(a: Action, tx: Tx) {
    (a.CommitClaim? || a.RollbackClaim?) && a.tx == tx
  }

  lemma OpenClaimStaysOpen(p: Params, w: World, a: Action, tx: Tx)
    requires LocksOk(w) && Enabled(p, w, a) && tx in w.locks && !Closes(a, tx)
    ensures var t := Next(p, w, a);
      && tx in t.locks && t.locks[tx] == w.locks[tx]
      && forall id :: id in w.locks[tx] ==> id in w.rows && id in t.rows && t.rows[id] == w.rows[id]
  {
    hide Delay, OldestDue, Locked, NextRows;
    forall id | id in w.locks[tx] ensures id in Next(p, w, a).rows && Next(p, w, a).rows[id] == w.rows[id] {
      StepKeepsLocked(p, w, a, tx, id);
    }
  }

  lemma {:induction false} OpenClaimKeepsItsRows(p: Params, w: World, run: seq<Action>, t: World, tx: Tx)
    requires Inv(p, w) && IsRun(p, w, run, t) && tx in w.locks && forall a :: a in run ==> !Closes(a, tx)
    ensures tx in t.locks && t.locks[tx] == w.locks[tx]
    ensures forall id :: id in w.locks[tx] ==> id in w.rows && id in t.rows && t.rows[id] == w.rows[id]
    decreases |run|
  {
    hide Enabled, Next, TableOk, TicketsOk, Closes;
    if run != [] {
      assert run[0] in run;
      OpenClaimStaysOpen(p, w, run[0], tx);
      StepKeepsInv(p, w, run[0]);
      OpenClaimKeepsItsRows(p, Next(p, w, run[0]), run[1..], t, tx);
    }
  }

  lemma BeginSelects(p: Params, w: World, begin: Action)
    requires Enabled(p, w, begin) && begin.BeginClaim?
    ensures var t := Next(p, w, begin);
      && begin.tx in t.locks && t.locks[begin.tx] == begin.chosen && t.rows == w.rows
      && OldestDue(w.rows, begin.now, Locked(w.locks), begin.limit, begin.chosen)
  {
    hide OldestDue, Locked;
  }

  /** A claim that commits returns exactly the rows it selected, which were the
      oldest due unlocked ones up to its limit, each with its next attempt
      number, whatever happened between its two steps. */
  lemma ClaimReturnsTheOldestDue(p: Params, w: World, begin: Action, run: seq<Action>, t: World, commit: Action)
    requires Inv(p, w) && begin.BeginClaim? && Enabled(p, w, begin) && IsRun(p, Next(p, w, begin), run, t)
    requires (forall a :: a in run ==> !Closes(a, begin.tx)) && commit.CommitClaim? && commit.tx == begin.tx
    ensures |begin.chosen| <= begin.limit
    ensures forall a :: a in begin.chosen ==>
      && a in w.rows && w.rows[a].status == Pending && (forall tx :: tx in w.locks ==> a !in w.locks[tx])
      && (w.rows[a].nextAttemptAt == None || w.rows[a].nextAttemptAt.value <= begin.now)
    ensures forall b ::
      && b in w.rows && b !in begin.chosen && w.rows[b].status == Pending && (forall tx :: tx in w.locks ==> b !in w.locks[tx])
      && (w.rows[b].nextAttemptAt == None || w.rows[b].nextAttemptAt.value <= begin.now) ==>
      && |begin.chosen| == begin.limit
      && forall a :: a in begin.chosen ==> w.rows[a].sub.createdAt <= w.rows[b].sub.createdAt
    ensures Next(p, t, commit).issued == t.issued + set a | a in begin.chosen :: Ticket(a, w.rows[a].attempts + 1)
    ensures forall a :: a in begin.chosen ==> a in Next(p, t, commit).rows && Next(p, t, commit).rows[a] == w.rows[a].(
      status := Processing, attempts := w.rows[a].attempts + 1, leaseUntil := Some(commit.until),
      lockedBy := commit.worker, nextAttemptAt := None)
  {
    StepKeepsInv(p, w, begin);
    BeginSelects(p, w, begin);
    OldestDueSpelledOut(w.rows, begin.now, Locked(w.locks), begin.limit, begin.chosen);
    LockedMembers(w.locks);
    hide Inv, IsRun, OldestDue, Next, Enabled, Closes, Locked;
    OpenClaimKeepsItsRows(p, Next(p, w, begin), run, t, begin.tx);
    CommitTakes(p, t, commit, w.rows);
  }

  lemma LockedMembers(locks: map<Tx, set<JobId>>)
    ensures forall id :: id in Locked(locks) <==> exists tx :: tx in locks && id in locks[tx]
  {
  }

  /** What a commit does to rows that are as they were when it selected them. */
  lemma CommitTakes(p: Params, t: World, commit: Action, rows: Table)
    requires commit.CommitClaim? && commit.tx in t.locks
    requires forall a :: a in t.locks[commit.tx] ==> a in rows && a in t.rows && t.rows[a] == rows[a]
    ensures Next(p, t, commit).issued == t.issued + set a | a in t.locks[commit.tx] :: Ticket(a, rows[a].attempts + 1)
    ensures forall a :: a in t.locks[commit.tx] ==>
      a in Next(p, t, commit).rows && Next(p, t, commit).rows[a] == rows[a].(
        status := Processing, attempts := rows[a].attempts + 1, leaseUntil := Some(commit.until),
        lockedBy := commit.worker, nextAttemptAt := None)
  {
  }

  /** In every reachable state claims in progress hold disjoint sets of pending
      rows, a key has one row, and every row's columns agree with its status. */
  lemma ReachableTablesAreSound(p: Params, run: seq<Action>, t: World)
    requires IsRun(p, Empty, run, t)
    ensures forall id :: id in t.rows ==>
      && (t.rows[id].leaseUntil != None <==> t.rows[id].status == Processing)
      && (t.rows[id].completedAt != None <==> t.rows[id].status == Completed || t.rows[id].status == Failed)
      && (t.rows[id].nextAttemptAt != None ==> t.rows[id].status == Pending)
      && (t.rows[id].lockedBy != "" ==> t.rows[id].status == Processing)
      && (t.rows[id].result != "" ==> t.rows[id].status == Completed)
      && (t.rows[id].error != "" ==> t.rows[id].status != Completed)
    ensures forall i, j :: i in t.rows && j in t.rows && t.rows[i].sub.key == t.rows[j].sub.key != "" ==> i == j
    ensures forall tx, id :: tx in t.locks && id in t.locks[tx] ==> id in t.rows && t.rows[id].status == Pending
    ensures forall tx, tx' :: tx in t.locks && tx' in t.locks && tx != tx' ==> t.locks[tx] !! t.locks[tx']
  {
    EmptyHasInv(p);
    RunKeepsInv(p, Empty, run, t);
  }

  // ---- the repository's methods take these steps -------------------------

  /** Every statement of JobRepo but a claim is one step. */
  method Execute(repo: JobRepo, p: Params, w: World, a: Action)
    requires repo.rows == w.rows && Enabled(p, w, a)
    requires !(a.BeginClaim? || a.CommitClaim? || a.RollbackClaim? || a.Process?)
    modifies repo
    ensures repo.rows == Next(p, w, a).rows
  {
    hide Delay, TableOk;
    match a {
      case Insert(id, sub) =>
        var ok := repo.Create(id, sub);
      case Extend(id, until) =>
        var found := repo.ExtendLease(id, until);
      case Complete(id, summary, now) =>
        var found := repo.Complete(id, summary, now);
      case Retry(id, message, base, cap, now) =>
        var res := repo.Retry(id, message, p.maxAttempts, base, cap, now);
      case Fail(id, message, now) =>
        var found := repo.Fail(id, message, now);
      case Reap(now) =>
        var n := repo.ReapExpired(now);
      case _ =>
    }
  }

  /** ClaimBatch is a selection of the oldest due rows and its commit, and returns
      the jobs the tickets are issued for. */
  method ExecuteClaim(repo: JobRepo, p: Params, w: World, tx: Tx, worker: string, until: Time, limit: nat, now: Time)
    returns (batch: seq<JobId>)
    requires repo.rows == w.rows && tx !in w.locks
    modifies repo
    ensures
      var begin, commit := BeginClaim(tx, now, limit, Elements(batch)), CommitClaim(tx, worker, until);
      var m := Next(p, w, begin);
      && Enabled(p, w, begin) && Enabled(p, m, commit) && repo.rows == Next(p, m, commit).rows
      && IssuedBy(m, commit) == set id | id in batch && id in w.rows :: Ticket(id, w.rows[id].attempts + 1)
  {
    hide TableOk, Locked, OldestDue, ClaimAll;
    batch := repo.ClaimBatch(worker, until, limit, now, Locked(w.locks));
    InBatch(batch);
  }

  // ---- what MAX_ATTEMPTS does not bound ----------------------------------

  /** When a statement read its clock; a claim's lease counts from before it. */
  function Clock(a: Action, lease: int): Option<Time> {
    match a
    case Insert(_, sub) => Some(sub.createdAt)
    case BeginClaim(_, now, _, _) => Some(now)
    case CommitClaim(_, _, until) => Some(until - lease)
    case Reap(now) => Some(now)
    case _ => None
  }

  /** The clock never goes back. */
  ghost predicate Ordered(run: seq<Action>, lease: int) {
    forall i, j :: 0 <= i < j < |run| && Clock(run[i], lease).Some? && Clock(run[j], lease).Some? ==>
      Clock(run[i], lease).value <= Clock(run[j], lease).value
  }

  /** Nothing in the run happened after `now`. */
  ghost predicate Until(run: seq<Action>, lease: int, now: Time) {
    forall i :: 0 <= i < |run| && Clock(run[i], lease).Some? ==> Clock(run[i], lease).value <= now
  }

  lemma {:induction false} RunsCompose(p: Params, w: World, run: seq<Action>, m: World, more: seq<Action>, t: World)
    requires IsRun(p, w, run, m) && IsRun(p, m, more, t)
    ensures IsRun(p, w, run + more, t)
    decreases |run|
  {
    hide Enabled, Next;
    if run == [] {
      assert run + more == more;
    } else {
      RunsCompose(p, Next(p, w, run[0]), run[1..], m, more, t);
      assert (run + more)[1..] == run[1..] + more;
    }
  }

  /** The state of a queue whose only job has been claimed and reaped n times. */
  ghost predicate CrashedTimes(w: World, id: JobId, n: nat) {
    && w.rows.Keys == {id} && w.locks == map[]
    && w.rows[id].status.Pending? && w.rows[id].nextAttemptAt.None? && w.rows[id].attempts == n
  }

  lemma ThreeSteps(p: Params, w: World, a: Action, b: Action, c: Action)
    requires Enabled(p, w, a) && Enabled(p, Next(p, w, a), b) && Enabled(p, Next(p, Next(p, w, a), b), c)
    ensures IsRun(p, w, [a, b, c], Next(p, Next(p, Next(p, w, a), b), c))
  {
    hide Enabled, Next;
    var w1 := Next(p, w, a);
    var w2 := Next(p, w1, b);
    var w3 := Next(p, w2, c);
    assert [c][1..] == [] && IsRun(p, w3, [], w3);
    assert [b, c][1..] == [c] && IsRun(p, w2, [c], w3);
    assert [a, b, c][1..] == [b, c] && IsRun(p, w1, [b, c], w3);
  }

  /** At `now`, claim the only job; its lease passes; reap it just after. */
  lemma OneCrash(p: Params, w: World, id: JobId, n: nat, lease: int, now: Time) returns (run: seq<Action>, t: World)
    requires CrashedTimes(w, id, n) && lease > 0
    ensures IsRun(p, w, run, t) && CrashedTimes(t, id, n + 1)
    ensures run == [BeginClaim(0, now, 1, {id}), CommitClaim(0, "worker", now + lease), Reap(now + lease + 1)]
  {
    var begin, commit, reap := BeginClaim(0, now, 1, {id}), CommitClaim(0, "worker", now + lease), Reap(now + lease + 1);
    hide OldestDue, IsRun, NextRows, Enabled, Next;
    var w1 := Next(p, w, begin);
    var w2 := Next(p, w1, commit);
    t := Next(p, w2, reap);
    run := [begin, commit, reap];
    CrashBegins(p, w, id, n, now);
    CrashRows(p, w, w1, w2, id, n, lease, now);
    CrashGoesOn(p, w1, commit);
    CrashGoesOn(p, w2, reap);
    ThreeSteps(p, w, begin, commit, reap);
    assert map[0 := {id}] - {0} == map[];
  }

  lemma CrashBegins(p: Params, w: World, id: JobId, n: nat, now: Time)
    requires CrashedTimes(w, id, n)
    ensures var begin := BeginClaim(0, now, 1, {id});
      Enabled(p, w, begin) && Next(p, w, begin).rows == w.rows && Next(p, w, begin).locks == map[0 := {id}]
  {
    CanSelectOnly(w, id, now);
    hide OldestDue, Locked;
  }

  lemma CrashGoesOn(p: Params, w: World, a: Action)
    requires a.Reap? || (a.CommitClaim? && a.tx in w.locks)
    ensures Enabled(p, w, a) && Next(p, w, a).rows == NextRows(p, w, a)
    ensures Next(p, w, a).locks == if a.CommitClaim? then w.locks - {a.tx} else w.locks
  {
    hide NextRows, IssuedBy;
  }

  lemma CrashRows(p: Params, w: World, w1: World, w2: World, id: JobId, n: nat, lease: int, now: Time)
    requires CrashedTimes(w, id, n) && w1.rows == w.rows && w1.locks == map[0 := {id}]
    requires w2.rows == NextRows(p, w1, CommitClaim(0, "worker", now + lease))
    ensures NextRows(p, w, BeginClaim(0, now, 1, {id})) == w.rows
    ensures var rows := NextRows(p, w2, Reap(now + lease + 1));
      && rows.Keys == {id} && rows[id].status.Pending? && rows[id].nextAttemptAt.None? && rows[id].attempts == n + 1
  {
    assert w2.rows.Keys == {id} && w2.rows[id] == ClaimRow(w.rows[id], "worker", now + lease);
  }

  lemma CanSelectOnly(w: World, id: JobId, now: Time)
    requires w.rows.Keys == {id} && w.locks == map[] && Due(w.rows[id], now)
    ensures OldestDue(w.rows, now, Locked(w.locks), 1, {id})
  {
    assert Candidates(w.rows, now, Locked(w.locks)) == {id};
  }

  /** A job whose worker keeps dying is claimed without limit: for every lease and
      every n, whatever MAX_ATTEMPTS is, there is a run along a clock that only goes
      forward that brings its attempts to n and leaves it pending. */
  lemma {:induction false} CrashLoopsAreUnbounded(p: Params, id: JobId, lease: int, n: nat)
    returns (run: seq<Action>, t: World, now: Time)
    requires lease > 0
    ensures IsRun(p, Empty, run, t) && Ordered(run, lease) && Until(run, lease, now)
    ensures Attempts(t, id) == n && CrashedTimes(t, id, n)
    ensures id in t.rows && t.rows[id].attempts == n && t.rows[id].status == Pending
    ensures |run| == 1 + 3 * n && run[0].Insert? && now == CrashTime(n, lease)
    ensures forall k :: 0 <= k < n ==> CrashAt(run, k, id, lease)
    decreases n
  {
    hide *;
    if n == 0 {
      run, t, now := [Insert(id, Submission(0, "", "", 0))], FirstInsert(p, id), 0;
      InsertsFirst(p, id, lease);
      CrashedAttempts(t, id, 0);
    } else {
      var before, m, last := CrashLoopsAreUnbounded(p, id, lease, n - 1);
      var once;
      once, t := OneCrash(p, m, id, n - 1, lease, last);
      RunsCompose(p, Empty, before, m, once, t);
      run, now := before + once, last + lease + 1;
      StaysOrdered(before, once, lease, last);
      CrashedAttempts(t, id, n);
      OneCrashMore(before, once, n - 1, id, lease);
    }
  }

  /** Crashes follow each other at once. */
  function CrashTime(k: nat, lease: int): int {
    if k == 0 then 0 else CrashTime(k - 1, lease) + lease + 1
  }

  /** The k-th crash of a run that crashes every time: a claim, its commit, and a reap
      just after its lease. */
  predicate CrashAt(run: seq<Action>, k: nat, id: JobId, lease: int) {
    3 * k + 3 < |run| &&
    var now := CrashTime(k, lease);
    run[3 * k + 1..3 * k + 4] ==
      [BeginClaim(0, now, 1, {id}), CommitClaim(0, "worker", now + lease), Reap(now + lease + 1)]
  }

  lemma OneCrashMore(before: seq<Action>, once: seq<Action>, n: nat, id: JobId, lease: int)
    requires |before| == 1 + 3 * n && forall k :: 0 <= k < n ==> CrashAt(before, k, id, lease)
    requires
      var now := CrashTime(n, lease);
      once == [BeginClaim(0, now, 1, {id}), CommitClaim(0, "worker", now + lease), Reap(now + lease + 1)]
    ensures forall k :: 0 <= k < n + 1 ==> CrashAt(before + once, k, id, lease)
    ensures CrashTime(n + 1, lease) == CrashTime(n, lease) + lease + 1
  {
    var run := before + once;
    forall k | 0 <= k < n + 1 ensures CrashAt(run, k, id, lease) {
      if k < n {
        assert CrashAt(before, k, id, lease);
        assert run[3 * k + 1..3 * k + 4] == before[3 * k + 1..3 * k + 4];
      } else {
        assert run[3 * n + 1..3 * n + 4] == once;
      }
    }
  }

  lemma StaysOrdered(before: seq<Action>, once: seq<Action>, lease: int, last: Time)
    requires Ordered(before, lease) && Until(before, lease, last) && lease > 0 && |once| == 3
    requires once[0].BeginClaim? && once[0].now == last && once[1].CommitClaim? && once[1].until == last + lease
    requires once[2].Reap? && once[2].now == last + lease + 1
    ensures Ordered(before + once, lease) && Until(before + once, lease, last + lease + 1)
  {
    var run, n := before + once, |before|;
    assert forall i :: 0 <= i < n ==> run[i] == before[i];
    assert run[n] == once[0] && run[n + 1] == once[1] && run[n + 2] == once[2];
  }

  lemma CrashedAttempts(t: World, id: JobId, n: nat)
    requires CrashedTimes(t, id, n)
    ensures Attempts(t, id) == n && id in t.rows && t.rows[id].attempts == n && t.rows[id].status == Pending
  {
  }

  function FirstInsert(p: Params, id: JobId): World {
    Next(p, Empty, Insert(id, Submission(0, "", "", 0)))
  }

  lemma InsertsFirst(p: Params, id: JobId, lease: int)
    ensures var run := [Insert(id, Submission(0, "", "", 0))];
      && IsRun(p, Empty, run, FirstInsert(p, id)) && Ordered(run, lease) && Until(run, lease, 0)
      && CrashedTimes(FirstInsert(p, id), id, 0) && CrashTime(0, lease) == 0
  {
    var insert := Insert(id, Submission(0, "", "", 0));
    CanInsertFirst(p, insert);
    hide Enabled;
    assert IsRun(p, FirstInsert(p, id), [insert][1..], FirstInsert(p, id));
  }

  lemma CanInsertFirst(p: Params, a: Action)
    requires a.Insert?
    ensures Enabled(p, Empty, a)
  {
  }
}
