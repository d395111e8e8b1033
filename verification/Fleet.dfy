/** Any number of worker processes over one jobs table. What WorkerPool assumes of
    claims, and JobRuns of the processing of tickets, holds of the two together. */
module Fleet {
  import opened Prelude
  import J = JobRuns
  import JobTable
  import Processor
  import W = WorkerPool
  import WorkerLoop

  type Ticket = J.Ticket
  type Tx = J.Tx
  type JobId = JobTable.JobId
  type Time = JobTable.Time

  datatype Config = Config(pool: W.Params, maxAttempts: nat, maxRetries: int) {
    predicate Valid() { pool.Valid() && maxAttempts >= 1 }

    function Queue(): J.Params { J.Params(maxAttempts, Processor.Bound(maxRetries)) }
  }

  /** `claims` are the open claims and the pools that wait for them; `strays` the
      tickets of claims that took effect after their pool had given up on them. */
  datatype State = State(world: J.World, pools: seq<W.State>, claims: map<Tx, nat>, strays: set<Ticket>)

  /** What a processing run meets outside. */
  datatype Surroundings = Surroundings(
    hasObject: bool, presigned: bool, replies: nat -> Processor.Reply, cancels: nat -> bool)

  /** Statement is any statement but a claim, made by anyone. Torn is a claim whose
      error comes after its commit, Abandon one whose error comes before. */
  datatype Action =
    | Statement(s: J.Action)
    | Local(i: nat, b: W.Action)
    | Begin(i: nat, tx: Tx, now: Time, chosen: set<JobId>)
    | Grant(tx: Tx, worker: string, until: Time, batch: seq<Ticket>)
    | Torn(tx: Tx, worker: string, until: Time, batch: seq<Ticket>)
    | Rollback(tx: Tx)
    | Abandon(tx: Tx)
    | StrayCommit(tx: Tx, worker: string, until: Time)
    | StrayRollback(tx: Tx)
    | Take(i: nat, m: nat, met: Surroundings, calls: nat)
    | Record(i: nat, m: nat, outcome: Option<J.Action>)
    | Release(i: nat, outcome: Option<J.Action>)

  function Start(c: Config, n: nat): State {
    State(J.Empty, seq(n, _ => W.Start(c.pool)), map[], {})
  }

  predicate IsPool(st: State, i: nat) { i < |st.pools| }

  predicate IsOpen(st: State, tx: Tx) { tx in st.claims && IsPool(st, st.claims[tx]) }

  ghost predicate Waits(st: State, i: nat) {
    exists tx :: tx in st.claims && st.claims[tx] == i
  }

  /** The moves of a pool that concern nobody else. A claim that fails before it
      reaches the table is an empty one. */
  predicate Inner(b: W.Action) {
    match b
    case Claim(batch) => batch == []
    case LoseClaim(_) => false
    case Take(_) => false
    case Record(_) => false
    case Release => false
    case _ => true
  }

  predicate Plain(s: J.Action) { s.Insert? || s.Extend? || s.Complete? || s.Retry? || s.Fail? || s.Reap? }

  /** An outcome call for this job, or none when the database is down. */
  predicate Reports(outcome: Option<J.Action>, id: JobId) {
    outcome.Some? ==>
      var s := outcome.value;
      (s.Complete? && s.id == id) || (s.Retry? && s.id == id) || (s.Fail? && s.id == id)
  }

  /** The batch lists what the table grants. */
  ghost predicate Lists(st: State, tx: Tx, worker: string, until: Time, batch: seq<Ticket>) {
    W.Distinct(batch) && (set t | t in batch) == J.IssuedBy(st.world, J.CommitClaim(tx, worker, until))
  }

  /** A pool has one claim open at most. A run of the job makes as many calls as
      RunJob does, or fewer when the process dies meanwhile. */
  ghost predicate Enabled(c: Config, st: State, a: Action) {
    match a
    case Statement(s) => Plain(s) && J.Enabled(c.Queue(), st.world, s)
    case Local(i, b) => IsPool(st, i) && Inner(b) && W.Enabled(c.pool, st.pools[i], b) && (b.Claim? ==> !Waits(st, i))
    case Begin(i, tx, now, chosen) =>
      && IsPool(st, i) && st.pools[i].poller.Asking? && !Waits(st, i) && tx !in st.claims
      && J.Enabled(c.Queue(), st.world, J.BeginClaim(tx, now, st.pools[i].poller.limit, chosen))
    case Grant(tx, worker, until, batch) => IsOpen(st, tx) && Lists(st, tx, worker, until, batch)
    case Torn(tx, worker, until, batch) => IsOpen(st, tx) && Lists(st, tx, worker, until, batch)
    case Rollback(tx) => IsOpen(st, tx)
    case Abandon(tx) => IsOpen(st, tx)
    case StrayCommit(tx, _, _) => tx in st.world.locks && tx !in st.claims
    case StrayRollback(tx) => tx in st.world.locks && tx !in st.claims
    case Take(i, m, met, calls) =>
      && IsPool(st, i) && W.Enabled(c.pool, st.pools[i], W.Take(m))
      && calls <= WorkerLoop.RunCalls(c.maxRetries, met.hasObject, met.presigned, met.replies, met.cancels)
    case Record(i, m, outcome) =>
      && IsPool(st, i) && W.Enabled(c.pool, st.pools[i], W.Record(m))
      && Reports(outcome, st.pools[i].members[m].ticket.id)
    case Release(i, outcome) =>
      && IsPool(st, i) && W.Enabled(c.pool, st.pools[i], W.Release) && Reports(outcome, st.pools[i].queue[0].id)
  }

  /** The step of the jobs table, if there is one. */
  function TableStep(st: State, a: Action): Option<J.Action> {
    match a
    case Statement(s) => Some(s)
    case Local(_, _) => None
    case Begin(i, tx, now, chosen) =>
      if IsPool(st, i) && st.pools[i].poller.Asking? then Some(J.BeginClaim(tx, now, st.pools[i].poller.limit, chosen)) else None
    case Grant(tx, worker, until, _) => Some(J.CommitClaim(tx, worker, until))
    case Torn(tx, worker, until, _) => Some(J.CommitClaim(tx, worker, until))
    case Rollback(tx) => Some(J.RollbackClaim(tx))
    case Abandon(_) => None
    case StrayCommit(tx, worker, until) => Some(J.CommitClaim(tx, worker, until))
    case StrayRollback(tx) => Some(J.RollbackClaim(tx))
    case Take(i, _, _, calls) =>
      if IsPool(st, i) && st.pools[i].queue != [] then Some(J.Process(st.pools[i].queue[0], calls)) else None
    case Record(_, _, outcome) => outcome
    case Release(_, outcome) => outcome
  }

  datatype Move = Move(i: nat, b: W.Action)

  /** The pool that moves, if one does, and how. */
  function PoolStep(st: State, a: Action): Option<Move> {
    match a
    case Local(i, b) => Some(Move(i, b))
    case Grant(tx, _, _, batch) => if tx in st.claims then Some(Move(st.claims[tx], W.Claim(batch))) else None
    case Torn(tx, _, _, batch) => if tx in st.claims then Some(Move(st.claims[tx], W.LoseClaim(batch))) else None
    case Rollback(tx) => if tx in st.claims then Some(Move(st.claims[tx], W.Claim([]))) else None
    case Abandon(tx) => if tx in st.claims then Some(Move(st.claims[tx], W.Claim([]))) else None
    case Take(i, m, _, _) => Some(Move(i, W.Take(m)))
    case Record(i, m, _) => Some(Move(i, W.Record(m)))
    case Release(i, _) => Some(Move(i, W.Release))
    case _ => None
  }

  predicate Closes(a: Action) { a.Grant? || a.Torn? || a.Rollback? || a.Abandon? }

  function NextWorld(c: Config, st: State, a: Action): J.World {
    var s := TableStep(st, a);
    if s.Some? then J.Next(c.Queue(), st.world, s.value) else st.world
  }

  function NextPools(c: Config, st: State, a: Action): seq<W.State> {
    var m := PoolStep(st, a);
    if m.Some? && IsPool(st, m.value.i)
    then st.pools[m.value.i := W.Next(c.pool, st.pools[m.value.i], m.value.b)]
    else st.pools
  }

  function Next(c: Config, st: State, a: Action): State {
    State(
      NextWorld(c, st, a),
      NextPools(c, st, a),
      if a.Begin? then st.claims[a.tx := a.i] else if Closes(a) then st.claims - {a.tx} else st.claims,
      if a.StrayCommit? then st.strays + J.IssuedBy(st.world, J.CommitClaim(a.tx, a.worker, a.until)) else st.strays)
  }

  ghost predicate IsRun(c: Config, st: State, run: seq<Action>, t: State)
    decreases |run|
  {
    if run == [] then st == t
    else Enabled(c, st, run[0]) && IsRun(c, Next(c, st, run[0]), run[1..], t)
  }

  // ---- the invariant -----------------------------------------------------

  /** An open claim holds no more rows than its pool has room for. */
  ghost predicate ClaimOk(st: State, tx: Tx) {
    && IsOpen(st, tx) && tx in st.world.locks
    && var s := st.pools[st.claims[tx]]; s.poller.Asking? && |st.world.locks[tx]| <= s.poller.limit
  }

  ghost predicate ClaimsOk(st: State) {
    && (forall tx :: tx in st.claims ==> ClaimOk(st, tx))
    && forall tx, tx' :: tx in st.claims && tx' in st.claims && tx != tx' ==> st.claims[tx] != st.claims[tx']
  }

  function Claimed(s: W.State): set<Ticket> { s.ledger.claimed }

  /** Every ticket issued went to one pool, or astray. */
  ghost predicate Shared(st: State) {
    && (forall t :: t in st.world.issued <==> t in st.strays || exists i :: HasClaimed(st, i, t))
    && (forall i, j, t :: HasClaimed(st, i, t) && HasClaimed(st, j, t) ==> i == j)
    && (forall i, t :: HasClaimed(st, i, t) ==> t !in st.strays)
  }

  ghost predicate HasClaimed(st: State, i: nat, t: Ticket) {
    IsPool(st, i) && t in Claimed(st.pools[i])
  }

  /** Tickets that wait in a pool have not been processed. */
  ghost predicate Fresh(s: W.State, calls: map<Ticket, nat>) {
    forall t :: t in s.queue || t in W.Unsent(s) ==> t !in calls
  }

  ghost predicate PoolsOk(c: Config, st: State) {
    forall i :: 0 <= i < |st.pools| ==> W.Inv(c.pool, st.pools[i]) && Fresh(st.pools[i], st.world.calls)
  }

  ghost predicate Inv(c: Config, st: State) {
    J.Inv(c.Queue(), st.world) && ClaimsOk(st) && Shared(st) && PoolsOk(c, st)
  }

  // ---- the two models allow each other's steps ---------------------------

  lemma {:induction false} DistinctSize(batch: seq<Ticket>)
    requires W.Distinct(batch)
    ensures |set t | t in batch| == |batch|
  {
    if batch != [] {
      var rest := batch[1..];
      assert forall i :: 0 <= i < |rest| ==> rest[i] == batch[i + 1];
      DistinctSize(rest);
      assert (set t | t in batch) == {batch[0]} + set t | t in rest;
    } else {
      assert (set t | t in batch) == {};
    }
  }

  lemma {:induction false} FewTickets(rows: JobTable.Table, chosen: set<JobId>)
    ensures |J.TicketsOf(rows, chosen)| <= |chosen|
  {
    if chosen != {} {
      var id :| id in chosen;
      var rest := chosen - {id};
      FewTickets(rows, rest);
      var one := if id in rows then {J.Ticket(id, rows[id].attempts + 1)} else {};
      assert J.TicketsOf(rows, chosen) == J.TicketsOf(rows, rest) + one;
      assert |J.TicketsOf(rows, chosen)| <= |J.TicketsOf(rows, rest)| + 1;
    } else {
      assert J.TicketsOf(rows, chosen) == {};
    }
  }

  /** WorkerPool's assumption: the table grants a pool at most what it asked for,
      each job once, and no ticket it has had before. */
  lemma GrantsAreClaimable(c: Config, st: State, tx: Tx, worker: string, until: Time, batch: seq<Ticket>)
    requires J.TicketsOk(c.Queue(), st.world) && ClaimsOk(st) && Shared(st)
    requires IsOpen(st, tx) && Lists(st, tx, worker, until, batch)
    ensures W.Claimable(st.pools[st.claims[tx]], batch)
  {
    var i := st.claims[tx];
    var commit := J.CommitClaim(tx, worker, until);
    assert ClaimOk(st, tx);
    DistinctSize(batch);
    FewTickets(st.world.rows, st.world.locks[tx]);
    J.IssuedIsNew(c.Queue(), st.world, commit);
    hide J.TicketsOk, J.TicketsOf, ClaimsOk;
    forall t | t in batch ensures t !in Claimed(st.pools[i]) {
      assert t in J.IssuedBy(st.world, commit);
      assert HasClaimed(st, i, t) ==> t in st.world.issued;
    }
  }

  /** A ticket at the head of a queue was issued to this pool, and is nowhere else
      in it. */
  lemma HeadIsClaimed(p: W.Params, s: W.State)
    requires W.Inv(p, s) && s.queue != []
    ensures s.queue[0] in Claimed(s) && s.queue[0] !in s.queue[1..] && s.queue[0] !in W.Unsent(s)
  {
    var x := s.queue[0];
    W.BalancedByCount(s);
    W.TakeOut(s.queue);
    assert multiset(s.ledger.claimed)[x] == W.Count(s, x);
    assert multiset(s.queue)[x] == 1 + multiset(s.queue[1..])[x];
  }

  lemma WaitingIsClaimed(p: W.Params, s: W.State, x: Ticket)
    requires W.Inv(p, s) && (x in s.queue || x in W.Unsent(s))
    ensures x in Claimed(s)
  {
    W.BalancedByCount(s);
    assert multiset(s.ledger.claimed)[x] == W.Count(s, x);
    assert x in s.queue ==> multiset(s.queue)[x] > 0;
    assert x in W.Unsent(s) ==> multiset(W.Unsent(s))[x] > 0;
  }

  /** JobRuns' assumption: a ticket is processed once at most, by the pool it was
      issued to, and with no more calls than the client's bound. */
  lemma TakesAreFirst(c: Config, st: State, a: Action)
    requires c.Valid() && Shared(st) && PoolsOk(c, st) && a.Take? && Enabled(c, st, a)
    ensures TableStep(st, a).Some? && J.Enabled(c.Queue(), st.world, TableStep(st, a).value)
  {
    hide W.Inv, WorkerLoop.RunCalls;
    var s := st.pools[a.i];
    assert W.Inv(c.pool, s) && Fresh(s, st.world.calls);
    HeadIsClaimed(c.pool, s);
    assert HasClaimed(st, a.i, s.queue[0]);
  }

  lemma TableAllows(c: Config, st: State, a: Action)
    requires c.Valid() && Inv(c, st) && Enabled(c, st, a) && TableStep(st, a).Some?
    ensures J.Enabled(c.Queue(), st.world, TableStep(st, a).value)
  {
    hide J.Inv, Shared, PoolsOk, W.Enabled, JobTable.OldestDue;
    if a.Take? {
      TakesAreFirst(c, st, a);
    } else if Closes(a) {
      assert ClaimOk(st, a.tx);
    }
  }

  lemma PoolAllows(c: Config, st: State, a: Action)
    requires c.Valid() && Inv(c, st) && Enabled(c, st, a) && PoolStep(st, a).Some?
    ensures var m := PoolStep(st, a).value; IsPool(st, m.i) && W.Enabled(c.pool, st.pools[m.i], m.b)
  {
    hide Shared, PoolsOk, J.Enabled, J.TicketsOk, J.LocksOk, JobTable.TableOk;
    if Closes(a) {
      assert ClaimOk(st, a.tx);
    }
    if a.Grant? || a.Torn? {
      GrantsAreClaimable(c, st, a.tx, a.worker, a.until, a.batch);
    }
  }

  // ---- every step keeps the invariant ------------------------------------

  lemma StepKeepsWorld(c: Config, st: State, a: Action)
    requires c.Valid() && Inv(c, st) && Enabled(c, st, a)
    ensures J.Inv(c.Queue(), Next(c, st, a).world)
  {
    hide Enabled, ClaimsOk, Shared, PoolsOk, J.Inv, J.Enabled, J.Next, TableStep;
    if TableStep(st, a).Some? {
      TableAllows(c, st, a);
      J.StepKeepsInv(c.Queue(), st.world, TableStep(st, a).value);
    }
  }

  /** A pool that waits for its claim does nothing else with its poller. */
  lemma WaitingPollerStays(c: Config, st: State, a: Action, tx: Tx)
    requires Enabled(c, st, a) && ClaimOk(st, tx) && !(Closes(a) && a.tx == tx)
    requires forall tx' :: tx' in st.claims && tx' != tx ==> st.claims[tx'] != st.claims[tx]
    ensures |NextPools(c, st, a)| == |st.pools|
    ensures NextPools(c, st, a)[st.claims[tx]].poller == st.pools[st.claims[tx]].poller
  {
    hide W.Claimable, W.NextLedger, W.NextMembers, W.NextQueue, Lists, Reports, J.Enabled, WorkerLoop.RunCalls;
    assert Waits(st, st.claims[tx]);
  }

  lemma TableKeepsLock(q: J.Params, w: J.World, s: J.Action, tx: Tx)
    requires J.Enabled(q, w, s) || s.CommitClaim? || s.RollbackClaim? || s.Process?
    requires tx in w.locks && !((s.CommitClaim? || s.RollbackClaim?) && s.tx == tx)
    ensures tx in J.Next(q, w, s).locks && J.Next(q, w, s).locks[tx] == w.locks[tx]
  {
    hide J.NextRows, J.IssuedBy, JobTable.OldestDue, JobTable.Insertable;
  }

  lemma LocksStay(c: Config, st: State, a: Action, tx: Tx)
    requires Enabled(c, st, a) && ClaimOk(st, tx) && !(Closes(a) && a.tx == tx)
    ensures tx in NextWorld(c, st, a).locks && NextWorld(c, st, a).locks[tx] == st.world.locks[tx]
  {
    hide W.Enabled, J.Next, Lists, WorkerLoop.RunCalls, Waits, JobTable.OldestDue, JobTable.Insertable, J.Locked;
    if TableStep(st, a).Some? {
      TableKeepsLock(c.Queue(), st.world, TableStep(st, a).value, tx);
    }
  }

  lemma BeginIsOk(c: Config, st: State, a: Action)
    requires Enabled(c, st, a) && a.Begin?
    ensures ClaimOk(Next(c, st, a), a.tx)
  {
    hide JobTable.NotAfter, JobTable.Candidates, J.NextRows, J.Locked;
  }

  lemma StepKeepsClaimsOk(c: Config, st: State, a: Action)
    requires ClaimsOk(st) && Enabled(c, st, a)
    ensures ClaimsOk(Next(c, st, a))
  {
    var t := Next(c, st, a);
    hide Enabled, NextWorld, NextPools;
    forall tx | tx in t.claims ensures ClaimOk(t, tx) {
      if a.Begin? && tx == a.tx {
        BeginIsOk(c, st, a);
      } else {
        assert ClaimOk(st, tx);
        WaitingPollerStays(c, st, a, tx);
        LocksStay(c, st, a, tx);
      }
    }
    if a.Begin? {
      BeginIsFirst(c, st, a);
    }
  }

  lemma BeginIsFirst(c: Config, st: State, a: Action)
    requires Enabled(c, st, a) && a.Begin?
    ensures forall tx :: tx in st.claims ==> st.claims[tx] != a.i && tx != a.tx
  {
    hide J.Enabled;
  }

  lemma TableIssues(q: J.Params, w: J.World, s: J.Action)
    ensures J.Next(q, w, s).issued == w.issued + J.IssuedBy(w, s)
    ensures !s.CommitClaim? ==> J.IssuedBy(w, s) == {}
  {
    hide J.NextRows, J.TicketsOf;
  }

  lemma PoolClaims(p: W.Params, s: W.State, b: W.Action)
    ensures Claimed(W.Next(p, s, b)) == Claimed(s) + if b.Claim? || b.LoseClaim? then set t | t in b.batch else {}
  {
    hide W.NextMembers, W.NextQueue, W.NextPoller;
  }

  /** New tickets go to pool `i`, or astray. */
  lemma ShareOut(st: State, t: State, i: nat, batch: set<Ticket>, astray: bool)
    requires Shared(st) && batch !! st.world.issued && t.world.issued == st.world.issued + batch
    requires |t.pools| == |st.pools| && (astray || i < |st.pools|)
    requires t.strays == st.strays + if astray then batch else {}
    requires forall j :: 0 <= j < |st.pools| ==>
      Claimed(t.pools[j]) == Claimed(st.pools[j]) + if j == i && !astray then batch else {}
    ensures Shared(t)
  {
    forall x ensures x in t.world.issued <==> x in t.strays || exists j :: HasClaimed(t, j, x) {
      if j :| HasClaimed(st, j, x) {
        assert HasClaimed(t, j, x);
      }
      if !astray && x in batch {
        assert HasClaimed(t, i, x);
      }
      if j :| HasClaimed(t, j, x) {
        assert HasClaimed(st, j, x) || x in batch;
      }
    }
    forall j, k, x | HasClaimed(t, j, x) && HasClaimed(t, k, x) ensures j == k {
      assert HasClaimed(st, j, x) || x in batch;
      assert HasClaimed(st, k, x) || x in batch;
    }
    forall j, x | HasClaimed(t, j, x) ensures x !in t.strays {
      assert HasClaimed(st, j, x) || x in batch;
    }
  }

  lemma StepKeepsShared(c: Config, st: State, a: Action)
    requires J.TicketsOk(c.Queue(), st.world) && Shared(st) && Enabled(c, st, a)
    ensures Shared(Next(c, st, a))
  {
    var t := Next(c, st, a);
    hide Shared, J.TicketsOk, J.IssuedBy, J.Next, J.Enabled, W.Next, W.Enabled, WorkerLoop.RunCalls, Claimed;
    var s, m := TableStep(st, a), PoolStep(st, a);
    if s.Some? {
      TableIssues(c.Queue(), st.world, s.value);
      J.IssuedIsNew(c.Queue(), st.world, s.value);
    }
    if m.Some? {
      PoolClaims(c.pool, st.pools[m.value.i], m.value.b);
    }
    if a.Grant? || a.Torn? {
      ShareOut(st, t, m.value.i, J.IssuedBy(st.world, s.value), false);
    } else if a.StrayCommit? {
      ShareOut(st, t, 0, J.IssuedBy(st.world, s.value), true);
    } else {
      if m.Some? {
        NothingClaimed(a, st);
      }
      ShareOut(st, t, 0, {}, true);
    }
  }

  lemma NothingClaimed(a: Action, st: State)
    requires !a.Grant? && !a.Torn? && PoolStep(st, a).Some? && (a.Local? ==> Inner(a.b))
    ensures var b := PoolStep(st, a).value.b; b.Claim? || b.LoseClaim? ==> b.batch == []
  {
  }

  /** What waits in a pool after a move waited there before, or is new. */
  lemma WaitingStays(p: W.Params, s: W.State, b: W.Action, x: Ticket)
    requires W.Roomy(p, s) && W.Enabled(p, s, b)
    requires var t := W.Next(p, s, b); x in t.queue || x in W.Unsent(t)
    ensures x in s.queue || x in W.Unsent(s) || (b.Claim? && x in b.batch)
    ensures b.Take? ==> x in s.queue[1..] || x in W.Unsent(s)
  {
    hide W.NextLedger, W.NextMembers, W.Claimable;
  }

  lemma CallsGrow(c: Config, st: State, a: Action, x: Ticket)
    requires Enabled(c, st, a) && x in Next(c, st, a).world.calls && x !in st.world.calls
    ensures a.Take? && IsPool(st, a.i) && st.pools[a.i].queue != [] && x == st.pools[a.i].queue[0]
  {
    hide J.NextRows, J.Enabled, J.IssuedBy, W.Claimable, WorkerLoop.RunCalls;
  }

  /** A granted ticket has no calls yet. */
  lemma GrantIsUncalled(c: Config, st: State, a: Action, x: Ticket)
    requires J.TicketsOk(c.Queue(), st.world) && a.Grant? && Enabled(c, st, a) && x in a.batch
    ensures x !in st.world.calls
  {
    hide J.IssuedBy;
    J.IssuedIsNew(c.Queue(), st.world, J.CommitClaim(a.tx, a.worker, a.until));
    assert x in J.IssuedBy(st.world, J.CommitClaim(a.tx, a.worker, a.until));
  }

  lemma StepKeepsFresh(c: Config, st: State, a: Action, i: nat, x: Ticket)
    requires c.Valid() && Inv(c, st) && Enabled(c, st, a) && i < |st.pools|
    requires var t := Next(c, st, a).pools[i]; x in t.queue || x in W.Unsent(t)
    ensures x !in Next(c, st, a).world.calls
  {
    var s, m := st.pools[i], PoolStep(st, a);
    assert W.Inv(c.pool, s) && Fresh(s, st.world.calls);
    if m.Some? && m.value.i == i {
      PoolAllows(c, st, a);
      hide Enabled, W.Enabled, W.Next, J.Inv, W.Inv, W.Roomy;
      WorldTickets(c, st);
      PoolRoomy(c.pool, s);
      WaitingStays(c.pool, s, m.value.b, x);
      MovesFresh(c, st, a, i, x);
    } else {
      hide Enabled, W.Enabled, W.Next, J.Inv, W.Inv;
      if x in Next(c, st, a).world.calls {
        CallsGrow(c, st, a, x);
        OthersTicket(c, st, a, i, x);
      }
    }
  }

  lemma WorldTickets(c: Config, st: State)
    requires Inv(c, st)
    ensures J.TicketsOk(c.Queue(), st.world)
  {
  }

  lemma PoolRoomy(p: W.Params, s: W.State)
    requires W.Inv(p, s)
    ensures W.Roomy(p, s)
  {
  }

  /** The moving pool. */
  lemma MovesFresh(c: Config, st: State, a: Action, i: nat, x: Ticket)
    requires J.TicketsOk(c.Queue(), st.world) && Enabled(c, st, a) && i < |st.pools|
    requires W.Inv(c.pool, st.pools[i]) && Fresh(st.pools[i], st.world.calls)
    requires PoolStep(st, a).Some? && PoolStep(st, a).value.i == i
    requires var b := PoolStep(st, a).value.b;
      && (x in st.pools[i].queue || x in W.Unsent(st.pools[i]) || (b.Claim? && x in b.batch))
      && (b.Take? ==> x in st.pools[i].queue[1..] || x in W.Unsent(st.pools[i]))
    ensures x !in Next(c, st, a).world.calls
  {
    hide W.Inv, W.Enabled, W.Next, J.TicketsOk, J.Enabled, Next, WorkerLoop.RunCalls;
    if a.Grant? && x in a.batch {
      GrantIsUncalled(c, st, a, x);
    }
    if x in Next(c, st, a).world.calls {
      CallsGrow(c, st, a, x);
      HeadIsClaimed(c.pool, st.pools[i]);
    }
  }

  lemma OneOwner(st: State, i: nat, j: nat, x: Ticket)
    requires Shared(st)
    ensures HasClaimed(st, i, x) && HasClaimed(st, j, x) ==> i == j
  {
  }

  /** A ticket another pool takes does not wait in this one. */
  lemma OthersTicket(c: Config, st: State, a: Action, i: nat, x: Ticket)
    requires Shared(st) && PoolsOk(c, st) && i < |st.pools| && a.Take? && IsPool(st, a.i) && a.i != i
    requires st.pools[a.i].queue != [] && x == st.pools[a.i].queue[0]
    ensures x !in st.pools[i].queue && x !in W.Unsent(st.pools[i])
  {
    hide W.Inv, W.Unsent;
    assert W.Inv(c.pool, st.pools[i]) && W.Inv(c.pool, st.pools[a.i]);
    HeadIsClaimed(c.pool, st.pools[a.i]);
    assert HasClaimed(st, a.i, x);
    if x in st.pools[i].queue || x in W.Unsent(st.pools[i]) {
      WaitingIsClaimed(c.pool, st.pools[i], x);
      OneOwner(st, i, a.i, x);
    }
  }

  lemma PoolKeepsInv(c: Config, st: State, a: Action, i: nat)
    requires c.Valid() && Inv(c, st) && Enabled(c, st, a) && i < |st.pools|
    ensures |NextPools(c, st, a)| == |st.pools| && W.Inv(c.pool, NextPools(c, st, a)[i])
  {
    hide Enabled, W.Enabled, W.Next, W.Inv, J.Inv, PoolStep, TableStep, ClaimsOk, Shared, Fresh;
    assert W.Inv(c.pool, st.pools[i]);
    if PoolStep(st, a).Some? && PoolStep(st, a).value.i == i {
      PoolAllows(c, st, a);
      W.StepKeepsInv(c.pool, st.pools[i], PoolStep(st, a).value.b);
    }
  }

  lemma PoolStaysFresh(c: Config, st: State, a: Action, i: nat)
    requires c.Valid() && Inv(c, st) && Enabled(c, st, a) && i < |st.pools| == |Next(c, st, a).pools|
    ensures Fresh(Next(c, st, a).pools[i], Next(c, st, a).world.calls)
  {
    hide Enabled, Next, Inv, W.Unsent;
    var t := Next(c, st, a);
    forall x | x in t.pools[i].queue || x in W.Unsent(t.pools[i]) ensures x !in t.world.calls {
      StepKeepsFresh(c, st, a, i, x);
    }
  }

  lemma StepKeepsPools(c: Config, st: State, a: Action)
    requires c.Valid() && Inv(c, st) && Enabled(c, st, a)
    ensures PoolsOk(c, Next(c, st, a))
  {
    var t := Next(c, st, a);
    assert t.pools == NextPools(c, st, a);
    hide Enabled, Next, NextPools, Inv, W.Inv, Fresh;
    forall i | 0 <= i < |t.pools| ensures W.Inv(c.pool, t.pools[i]) && Fresh(t.pools[i], t.world.calls) {
      SamePools(c, st, a);
      PoolKeepsInv(c, st, a, i);
      PoolStaysFresh(c, st, a, i);
    }
  }

  lemma StepKeepsInv(c: Config, st: State, a: Action)
    requires c.Valid() && Inv(c, st) && Enabled(c, st, a)
    ensures Inv(c, Next(c, st, a))
  {
    hide Enabled, Next, ClaimsOk, Shared, PoolsOk, J.Inv;
    WorldTickets(c, st);
    StepKeepsWorld(c, st, a);
    StepKeepsClaimsOk(c, st, a);
    StepKeepsShared(c, st, a);
    StepKeepsPools(c, st, a);
  }

  // ---- whole runs, seen from the table and from each pool ----------------

  function TableRun(c: Config, st: State, run: seq<Action>): seq<J.Action>
    decreases |run|
  {
    if run == [] then []
    else
      var rest := TableRun(c, Next(c, st, run[0]), run[1..]);
      if TableStep(st, run[0]).Some? then [TableStep(st, run[0]).value] + rest else rest
  }

  function PoolRun(c: Config, st: State, run: seq<Action>, i: nat): seq<W.Action>
    decreases |run|
  {
    if run == [] then []
    else
      var rest := PoolRun(c, Next(c, st, run[0]), run[1..], i);
      var m := PoolStep(st, run[0]);
      if m.Some? && m.value.i == i then [m.value.b] + rest else rest
  }

  lemma TableCons(q: J.Params, w: J.World, s: J.Action, run: seq<J.Action>, t: J.World)
    requires J.Enabled(q, w, s) && J.IsRun(q, J.Next(q, w, s), run, t)
    ensures J.IsRun(q, w, [s] + run, t)
  {
    hide J.Enabled, J.Next;
    assert ([s] + run)[1..] == run;
  }

  lemma PoolCons(p: W.Params, s: W.State, b: W.Action, run: seq<W.Action>, t: W.State)
    requires W.Enabled(p, s, b) && W.IsRun(p, W.Next(p, s, b), run, t)
    ensures W.IsRun(p, s, [b] + run, t)
  {
    hide W.Enabled, W.Next;
    assert ([b] + run)[1..] == run;
  }

  lemma {:induction false} RunKeepsInv(c: Config, st: State, run: seq<Action>, t: State)
    requires c.Valid() && Inv(c, st) && IsRun(c, st, run, t)
    ensures Inv(c, t) && |t.pools| == |st.pools|
    decreases |run|
  {
    if run != [] {
      SamePools(c, st, run[0]);
      hide Inv, Enabled, Next;
      StepKeepsInv(c, st, run[0]);
      RunKeepsInv(c, Next(c, st, run[0]), run[1..], t);
    }
  }

  lemma SamePools(c: Config, st: State, a: Action)
    ensures |Next(c, st, a).pools| == |st.pools|
  {
    hide W.Next, J.Next;
  }

  /** The table sees a run of JobRuns. */
  lemma {:induction false} TheTableRuns(c: Config, st: State, run: seq<Action>, t: State)
    requires c.Valid() && Inv(c, st) && IsRun(c, st, run, t)
    ensures J.IsRun(c.Queue(), st.world, TableRun(c, st, run), t.world)
    decreases |run|
  {
    if run != [] {
      var a, next := run[0], Next(c, st, run[0]);
      assert next.world == NextWorld(c, st, a);
      hide Inv, Enabled, Next, J.Enabled, J.Next, J.IsRun, TableStep;
      StepKeepsInv(c, st, a);
      TheTableRuns(c, next, run[1..], t);
      if TableStep(st, a).Some? {
        TableAllows(c, st, a);
        TableCons(c.Queue(), st.world, TableStep(st, a).value, TableRun(c, next, run[1..]), t.world);
      }
    }
  }

  /** And each pool a run of WorkerPool. */
  lemma {:induction false} EachPoolRuns(c: Config, st: State, run: seq<Action>, t: State, i: nat)
    requires c.Valid() && Inv(c, st) && IsRun(c, st, run, t) && i < |st.pools|
    ensures |t.pools| == |st.pools| && W.IsRun(c.pool, st.pools[i], PoolRun(c, st, run, i), t.pools[i])
    decreases |run|
  {
    if run != [] {
      var a, next := run[0], Next(c, st, run[0]);
      SamePools(c, st, a);
      assert next.pools == NextPools(c, st, a);
      hide Inv, Enabled, Next, W.Enabled, W.Next, W.IsRun, PoolStep;
      StepKeepsInv(c, st, a);
      EachPoolRuns(c, next, run[1..], t, i);
      var m := PoolStep(st, a);
      if m.Some? && m.value.i == i {
        PoolAllows(c, st, a);
        PoolCons(c.pool, st.pools[i], m.value.b, PoolRun(c, next, run[1..], i), t.pools[i]);
      }
    }
  }

  lemma StartHasInv(c: Config, n: nat)
    requires c.Valid()
    ensures Inv(c, Start(c, n))
  {
    J.EmptyHasInv(c.Queue());
    W.StartHasInv(c.pool);
    hide J.Inv, W.Inv;
  }

  lemma TableOf(c: Config, n: nat)
    requires c.Valid()
    ensures c.Queue().Valid() && c.Queue().maxAttempts == c.maxAttempts && c.Queue().maxCalls == Processor.Bound(c.maxRetries)
    ensures Processor.Bound(c.maxRetries) == if c.maxRetries < 1 then 1 else c.maxRetries
    ensures Start(c, n).world == J.Empty && |Start(c, n).pools| == n
    ensures forall i :: 0 <= i < n ==> Start(c, n).pools[i] == W.Start(c.pool)
  {
  }

  // ---- what the ledgers tell of the calls --------------------------------

  /** What was recorded or is running has been processed; what was released, dropped
      or lost has not. */
  ghost predicate Told(s: W.State, calls: map<Ticket, nat>) {
    && (forall x :: x in s.ledger.recorded ==> x in calls)
    && (forall k :: 0 <= k < |s.members| && s.members[k].Running? ==> s.members[k].ticket in calls)
    && (forall x :: PutAway(s, x) ==> x !in calls)
  }

  predicate PutAway(s: W.State, x: Ticket) {
    x in s.ledger.released || x in s.ledger.dropped || x in s.ledger.lost
  }

  ghost predicate AllTold(st: State) {
    forall i :: 0 <= i < |st.pools| ==> Told(st.pools[i], st.world.calls)
  }

  lemma PutAwayIsClaimed(p: W.Params, s: W.State, x: Ticket)
    requires W.Inv(p, s) && PutAway(s, x)
    ensures x in Claimed(s) && x !in s.queue
  {
    hide W.Roomy, W.DropsOk, W.Joined, W.Balanced;
    W.BalancedByCount(s);
    assert multiset(s.ledger.claimed)[x] == W.Count(s, x);
    assert x in s.ledger.dropped ==> multiset(s.ledger.dropped)[x] > 0;
    assert x in s.ledger.lost ==> multiset(s.ledger.lost)[x] > 0;
    assert x in s.queue ==> multiset(s.queue)[x] > 0;
  }

  lemma MoveRuns(p: W.Params, s: W.State, b: W.Action, calls: map<Ticket, nat>, calls': map<Ticket, nat>)
    requires W.Enabled(p, s, b) && Told(s, calls) && calls.Keys <= calls'.Keys
    requires b.Take? ==> s.queue != [] && s.queue[0] in calls'
    ensures var t := W.Next(p, s, b);
      && (forall x :: x in t.ledger.recorded ==> x in calls')
      && (forall k :: 0 <= k < |t.members| && t.members[k].Running? ==> t.members[k].ticket in calls')
  {
    hide W.NextQueue, W.NextPoller, W.NextStopper, W.Claimable, PutAway;
  }

  lemma MovePutsAway(p: W.Params, s: W.State, b: W.Action, calls: map<Ticket, nat>, x: Ticket)
    requires W.Enabled(p, s, b) && Told(s, calls) && Fresh(s, calls) && PutAway(W.Next(p, s, b), x)
    requires b.LoseClaim? ==> forall y :: y in b.batch ==> y !in calls
    ensures x !in calls && (b.Take? ==> PutAway(s, x))
  {
    hide W.NextQueue, W.NextPoller, W.NextStopper, W.NextMembers, W.Claimable;
    assert PutAway(s, x) ==> x !in calls;
  }

  /** The pool that moves. */
  lemma MoveKeepsTold(p: W.Params, s: W.State, b: W.Action, calls: map<Ticket, nat>, calls': map<Ticket, nat>)
    requires W.Enabled(p, s, b) && Told(s, calls) && Fresh(s, calls) && calls.Keys <= calls'.Keys
    requires b.LoseClaim? ==> forall x :: x in b.batch ==> x !in calls
    requires if b.Take? then s.queue != [] && calls'.Keys == calls.Keys + {s.queue[0]} && !PutAway(s, s.queue[0])
             else calls'.Keys == calls.Keys
    ensures Told(W.Next(p, s, b), calls')
  {
    hide W.Enabled, W.Next, PutAway, Fresh;
    var t := W.Next(p, s, b);
    MoveRuns(p, s, b, calls, calls');
    forall x | PutAway(t, x) ensures x !in calls' {
      MovePutsAway(p, s, b, calls, x);
    }
  }

  /** A pool that does not. */
  lemma OthersStayTold(s: W.State, calls: map<Ticket, nat>, calls': map<Ticket, nat>)
    requires Told(s, calls) && calls.Keys <= calls'.Keys
    requires forall x :: x in calls' && x !in calls ==> !PutAway(s, x)
    ensures Told(s, calls')
  {
    hide PutAway;
  }

  lemma CallsAfter(c: Config, st: State, a: Action)
    requires Enabled(c, st, a)
    ensures Next(c, st, a).world.calls.Keys == st.world.calls.Keys +
      if a.Take? && IsPool(st, a.i) && st.pools[a.i].queue != [] then {st.pools[a.i].queue[0]} else {}
  {
    hide J.NextRows, J.Enabled, J.IssuedBy, W.Claimable, WorkerLoop.RunCalls;
  }

  lemma LostAreUncalled(c: Config, st: State, a: Action)
    requires J.TicketsOk(c.Queue(), st.world) && a.Torn? && Enabled(c, st, a)
    ensures forall x :: x in a.batch ==> x !in st.world.calls
  {
    hide J.IssuedBy;
    J.IssuedIsNew(c.Queue(), st.world, J.CommitClaim(a.tx, a.worker, a.until));
    forall x | x in a.batch ensures x !in st.world.calls {
      assert x in J.IssuedBy(st.world, J.CommitClaim(a.tx, a.worker, a.until));
    }
  }

  lemma PoolsOf(c: Config, st: State, i: nat)
    requires Inv(c, st) && i < |st.pools|
    ensures W.Inv(c.pool, st.pools[i]) && Fresh(st.pools[i], st.world.calls) && Shared(st) && PoolsOk(c, st)
    ensures J.TicketsOk(c.Queue(), st.world)
  {
    hide W.Inv, Fresh, Shared, J.TicketsOk;
  }

  lemma MoverStaysTold(c: Config, st: State, a: Action, i: nat)
    requires c.Valid() && Inv(c, st) && Enabled(c, st, a) && i < |st.pools| && Told(st.pools[i], st.world.calls)
    requires PoolStep(st, a).Some? && PoolStep(st, a).value.i == i
    ensures Told(W.Next(c.pool, st.pools[i], PoolStep(st, a).value.b), Next(c, st, a).world.calls)
  {
    var s, b := st.pools[i], PoolStep(st, a).value.b;
    hide *;
    TakesTheHead(c, st, a);
    CallsAfter(c, st, a);
    PoolsOf(c, st, i);
    PoolAllows(c, st, a);
    if a.Torn? {
      LostAreUncalled(c, st, a);
    }
    if a.Take? && PutAway(s, s.queue[0]) {
      PutAwayIsClaimed(c.pool, s, s.queue[0]);
    }
    MoveKeepsTold(c.pool, s, b, st.world.calls, Next(c, st, a).world.calls);
  }

  lemma OtherStaysTold(c: Config, st: State, a: Action, i: nat)
    requires c.Valid() && Inv(c, st) && Enabled(c, st, a) && i < |st.pools| && Told(st.pools[i], st.world.calls)
    requires PoolStep(st, a).Some? ==> PoolStep(st, a).value.i != i
    ensures Told(st.pools[i], Next(c, st, a).world.calls)
  {
    if a.Take? {
      TakesTheHead(c, st, a);
    }
    hide *;
    CallsAfter(c, st, a);
    PoolsOf(c, st, i);
    if a.Take? {
      NotPutAwayElsewhere(c, st, a.i, i);
    }
    OthersStayTold(st.pools[i], st.world.calls, Next(c, st, a).world.calls);
  }

  lemma StepKeepsTold(c: Config, st: State, a: Action, i: nat)
    requires c.Valid() && Inv(c, st) && Enabled(c, st, a) && i < |st.pools| && Told(st.pools[i], st.world.calls)
    ensures |NextPools(c, st, a)| == |st.pools| && Told(NextPools(c, st, a)[i], Next(c, st, a).world.calls)
  {
    hide Enabled, W.Next, Told, Next, Inv, PoolStep, TableStep;
    if PoolStep(st, a).Some? && PoolStep(st, a).value.i == i {
      MoverStaysTold(c, st, a, i);
    } else {
      OtherStaysTold(c, st, a, i);
    }
  }

  lemma TakesTheHead(c: Config, st: State, a: Action)
    requires Enabled(c, st, a) && PoolStep(st, a).Some?
    ensures PoolStep(st, a).value.b.Take? <==> a.Take?
    ensures PoolStep(st, a).value.b.LoseClaim? <==> a.Torn?
    ensures a.Torn? ==> PoolStep(st, a).value.b.batch == a.batch
    ensures a.Take? ==> PoolStep(st, a).value.i == a.i && IsPool(st, a.i) && a.i < |st.pools| && st.pools[a.i].queue != []
  {
    hide J.Enabled, J.IssuedBy, W.Claimable, WorkerLoop.RunCalls, Lists;
  }

  lemma NotPutAwayElsewhere(c: Config, st: State, j: nat, i: nat)
    requires Shared(st) && PoolsOk(c, st) && j < |st.pools| && i < |st.pools| && i != j && st.pools[j].queue != []
    ensures !PutAway(st.pools[i], st.pools[j].queue[0])
  {
    hide W.Inv, PutAway;
    var x := st.pools[j].queue[0];
    assert W.Inv(c.pool, st.pools[i]) && W.Inv(c.pool, st.pools[j]);
    HeadIsClaimed(c.pool, st.pools[j]);
    assert HasClaimed(st, j, x);
    if PutAway(st.pools[i], x) {
      PutAwayIsClaimed(c.pool, st.pools[i], x);
      OneOwner(st, i, j, x);
    }
  }

  lemma {:induction false} RunKeepsTold(c: Config, st: State, run: seq<Action>, t: State)
    requires c.Valid() && Inv(c, st) && AllTold(st) && IsRun(c, st, run, t)
    ensures AllTold(t)
    decreases |run|
  {
    if run != [] {
      var next := Next(c, st, run[0]);
      assert next.pools == NextPools(c, st, run[0]);
      hide Inv, Enabled, Next, NextPools, Told;
      forall i | 0 <= i < |next.pools| ensures Told(next.pools[i], next.world.calls) {
        SamePools(c, st, run[0]);
        StepKeepsTold(c, st, run[0], i);
      }
      StepKeepsInv(c, st, run[0]);
      RunKeepsTold(c, next, run[1..], t);
    }
  }

  lemma StartIsTold(c: Config, n: nat)
    ensures AllTold(Start(c, n))
  {
  }

  // ---- what holds --------------------------------------------------------

  /** Over its whole life a job costs at most max(1, maxRetries) calls to the
      external processor for each attempt that MAX_ATTEMPTS grants and for each
      reap once those were used up, over all worker processes together. */
  lemma LifetimeCalls(c: Config, n: nat, run: seq<Action>, t: State, id: JobId)
    requires c.Valid() && IsRun(c, Start(c, n), run, t)
    ensures
      var over := J.OverReaps(c.Queue(), J.Empty, TableRun(c, Start(c, n), run), id);
      J.CallsUpTo(t.world.calls, id, J.Attempts(t.world, id)) <= (c.maxAttempts + over) * Processor.Bound(c.maxRetries)
    ensures forall x :: x in t.world.calls && x.id == id ==>
      && 1 <= x.attempt <= c.maxAttempts + J.OverReaps(c.Queue(), J.Empty, TableRun(c, Start(c, n), run), id)
      && t.world.calls[x] <= if c.maxRetries < 1 then 1 else c.maxRetries
  {
    hide *;
    StartHasInv(c, n);
    TableOf(c, n);
    TheTableRuns(c, Start(c, n), run, t);
    J.LifetimeCalls(c.Queue(), TableRun(c, Start(c, n), run), t.world, id);
  }

  /** Every claim the table ever granted went to exactly one worker process, or its
      process had given up on it before it took effect; and once that process has
      stopped, the job was processed with one outcome call, or released once, or
      dropped on cancellation, or lost with the error of its claim. The external
      processor was asked about it in the first case only. */
  lemma TicketsAreHandledOnce(c: Config, n: nat, run: seq<Action>, t: State, x: Ticket)
    requires c.Valid() && IsRun(c, Start(c, n), run, t)
    ensures x in t.world.issued <==> x in t.strays || exists i :: HasClaimed(t, i, x)
    ensures forall i, j :: HasClaimed(t, i, x) && HasClaimed(t, j, x) ==> i == j
    ensures forall i: nat :: HasClaimed(t, i, x) && t.pools[i].stopper.Stopped? ==>
      var l := t.pools[i].ledger;
      && x !in t.strays
      && l.recorded[x] + l.released[x] + multiset(l.dropped)[x] + multiset(l.lost)[x] == 1
      && (x in l.dropped ==> t.pools[i].cancelled)
      && (x in l.recorded <==> x in t.world.calls)
  {
    StartHasInv(c, n);
    StartIsTold(c, n);
    TableOf(c, n);
    hide Inv, IsRun, Start, Told;
    RunKeepsInv(c, Start(c, n), run, t);
    RunKeepsTold(c, Start(c, n), run, t);
    InvShared(c, t);
    forall i: nat | HasClaimed(t, i, x) && t.pools[i].stopper.Stopped?
      ensures var l := t.pools[i].ledger;
        && x !in t.strays
        && l.recorded[x] + l.released[x] + multiset(l.dropped)[x] + multiset(l.lost)[x] == 1
        && (x in l.dropped ==> t.pools[i].cancelled)
        && (x in l.recorded <==> x in t.world.calls)
    {
      TellsOf(t.pools[i], t.world.calls, x);
      EachPoolRuns(c, Start(c, n), run, t, i);
      PoolHandles(c, t.pools[i], PoolRun(c, Start(c, n), run, i), x);
    }
  }

  lemma TellsOf(s: W.State, calls: map<Ticket, nat>, x: Ticket)
    requires Told(s, calls)
    ensures x in s.ledger.recorded ==> x in calls
    ensures s.ledger.released[x] + multiset(s.ledger.dropped)[x] + multiset(s.ledger.lost)[x] > 0 ==> x !in calls
  {
    assert multiset(s.ledger.dropped)[x] > 0 ==> x in s.ledger.dropped;
    assert multiset(s.ledger.lost)[x] > 0 ==> x in s.ledger.lost;
    assert PutAway(s, x) ==> x !in calls;
  }

  lemma InvShared(c: Config, st: State)
    requires Inv(c, st)
    ensures Shared(st)
  {
  }

  lemma PoolHandles(c: Config, s: W.State, run: seq<W.Action>, x: Ticket)
    requires c.Valid() && W.IsRun(c.pool, W.Start(c.pool), run, s) && s.stopper.Stopped? && x in Claimed(s)
    ensures var l := s.ledger;
      && l.recorded[x] + l.released[x] + multiset(l.dropped)[x] + multiset(l.lost)[x] == 1
      && (x in l.dropped ==> s.cancelled)
  {
    hide W.IsRun;
    W.ClaimedJobsAreHandledOnce(c.pool, s, x);
  }

  /** No ticket is processed twice, and none that still waits has been. */
  lemma OneRunPerTicket(c: Config, n: nat, run: seq<Action>, t: State, a: Action)
    requires c.Valid() && IsRun(c, Start(c, n), run, t) && Enabled(c, t, a) && a.Take?
    ensures a.i < |t.pools| && t.pools[a.i].queue != [] && t.pools[a.i].queue[0] !in t.world.calls
  {
    hide *;
    StartHasInv(c, n);
    RunKeepsInv(c, Start(c, n), run, t);
    HeadIsUncalled(c, t, a);
  }

  lemma HeadIsUncalled(c: Config, st: State, a: Action)
    requires Inv(c, st) && Enabled(c, st, a) && a.Take?
    ensures a.i < |st.pools| && st.pools[a.i].queue != [] && st.pools[a.i].queue[0] !in st.world.calls
  {
    hide J.Inv, W.Inv, ClaimsOk, Shared, WorkerLoop.RunCalls;
    assert Fresh(st.pools[a.i], st.world.calls);
  }
}
