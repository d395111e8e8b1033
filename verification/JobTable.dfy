/** The jobs table and the statements of JobRepo, each of which changes it in one
    atomic step. Times are the nanoseconds of whichever clock the code reads. */
module JobTable {
  import opened Prelude

  type JobId = string
  type Time = int

  datatype Status = Pending | Processing | Completed | Failed

  /** The columns fixed by the insert. */
  datatype Submission = Submission(createdAt: Time, key: string, objectKey: string, size: nat)

  datatype Row = Row(
    status: Status,
    attempts: nat,
    result: string,
    error: string,
    lockedBy: string,
    leaseUntil: Option<Time>,
    nextAttemptAt: Option<Time>,
    completedAt: Option<Time>,
    sub: Submission)
  {
    predicate Terminal() { status.Completed? || status.Failed? }
  }

  type Table = map<JobId, Row>

  // ---- what each statement does to a row ---------------------------------

  function NewRow(sub: Submission): Row {
    Row(Pending, 0, "", "", "", None, None, None, sub)
  }

  predicate Due(r: Row, now: Time) {
    r.status.Pending? && (r.nextAttemptAt.None? || r.nextAttemptAt.value <= now)
  }

  function ClaimRow(r: Row, worker: string, until: Time): Row {
    r.(status := Processing, attempts := r.attempts + 1, leaseUntil := Some(until), lockedBy := worker,
       nextAttemptAt := None)
  }

  function ExtendRow(r: Row, until: Time): Row {
    r.(leaseUntil := Some(until))
  }

  function CompleteRow(r: Row, summary: string, now: Time): Row {
    r.(status := Completed, result := summary, error := "", leaseUntil := None, lockedBy := "",
       completedAt := Some(now))
  }

  function FailRow(r: Row, message: string, now: Time): Row {
    r.(status := Failed, error := message, leaseUntil := None, lockedBy := "", nextAttemptAt := None,
       completedAt := Some(now))
  }

  function Pow2(k: nat): nat {
    if k == 0 then 1 else 2 * Pow2(k - 1)
  }

  /** LEAST(base * POWER(2, GREATEST(attempts - 1, 0)), cap). */
  function Delay(attempts: nat, base: int, cap: int): int {
    Min(base * Pow2(if attempts == 0 then 0 else attempts - 1), cap)
  }

  function RetryRow(r: Row, message: string, maxAttempts: int, base: int, cap: int, now: Time): Row {
    var exhausted := r.attempts >= maxAttempts;
    r.(status := if exhausted then Failed else Pending, error := message, leaseUntil := None, lockedBy := "",
       nextAttemptAt := if exhausted then None else Some(now + Delay(r.attempts, base, cap)),
       completedAt := if exhausted then Some(now) else None)
  }

  predicate Expired(r: Row, now: Time) {
    r.status.Processing? && r.leaseUntil.Some? && r.leaseUntil.value < now
  }

  function ReapRow(r: Row): Row {
    r.(status := Pending, leaseUntil := None, lockedBy := "", error := "lease expired, requeued")
  }

  // ---- and to the table --------------------------------------------------

  /** UPDATE ... WHERE id = $1 AND status = 'processing'. */
  predicate Hits(rows: Table, id: JobId) {
    id in rows && rows[id].status.Processing?
  }

  function Put(rows: Table, id: JobId, hit: bool, r: Row): Table {
    if hit then rows[id := r] else rows
  }

  function ClaimAll(rows: Table, chosen: set<JobId>, worker: string, until: Time): Table {
    map id | id in rows :: if id in chosen then ClaimRow(rows[id], worker, until) else rows[id]
  }

  function ReapAll(rows: Table, now: Time): Table {
    map id | id in rows :: if Expired(rows[id], now) then ReapRow(rows[id]) else rows[id]
  }

  /** The rows the inner SELECT may take: due, and not locked by another claim. */
  function Candidates(rows: Table, now: Time, locked: set<JobId>): set<JobId> {
    set id | id in rows && Due(rows[id], now) && id !in locked
  }

  /** ORDER BY created_at FOR UPDATE SKIP LOCKED LIMIT limit: the oldest
      candidates, as many as there are up to the limit. Ties are free. */
  ghost predicate OldestDue(rows: Table, now: Time, locked: set<JobId>, limit: nat, chosen: set<JobId>) {
    var all := Candidates(rows, now, locked);
    && chosen <= all
    && |chosen| == Min(limit, |all|)
    && forall a :: a in chosen ==> NotAfter(rows, a, all - chosen)
  }

  /** Row `a` was created no later than any of `others`. */
  predicate NotAfter(rows: Table, a: JobId, others: set<JobId>) {
    forall b :: b in others && a in rows && b in rows ==> rows[a].sub.createdAt <= rows[b].sub.createdAt
  }

  /** The primary key, and the partial unique index on idempotency_key. */
  predicate Insertable(rows: Table, id: JobId, key: string) {
    id !in rows && (key == "" || forall j :: j in rows ==> rows[j].sub.key != key)
  }

  // ---- the invariant -----------------------------------------------------

  /** The columns agree with the status. */
  ghost predicate RowOk(r: Row) {
    && (r.leaseUntil.Some? <==> r.status.Processing?)
    && (r.completedAt.Some? <==> r.Terminal())
    && (r.nextAttemptAt.Some? ==> r.status.Pending?)
    && (r.lockedBy != "" ==> r.status.Processing?)
    && (r.result != "" ==> r.status.Completed?)
    && (r.status.Completed? ==> r.error == "")
  }

  ghost predicate KeysUnique(rows: Table) {
    forall i, j :: i in rows && j in rows && rows[i].sub.key == rows[j].sub.key != "" ==> i == j
  }

  ghost predicate TableOk(rows: Table) {
    (forall id :: id in rows ==> RowOk(rows[id])) && KeysUnique(rows)
  }

  // ---- the backoff -------------------------------------------------------

  lemma {:induction false} Pow2Grows(a: nat, b: nat)
    requires a <= b
    ensures 1 <= Pow2(a) <= Pow2(b)
  {
    if a < b {
      Pow2Grows(a, b - 1);
    } else if a > 0 {
      Pow2Grows(a - 1, a - 1);
    }
  }

  lemma ProductGrows(base: int, x: nat, y: nat)
    requires 0 <= base && x <= y
    ensures base * x <= base * y
  {
  }

  /** More attempts, no shorter delay. */
  lemma DelayGrows(a: nat, b: nat, base: int, cap: int)
    requires a <= b && 0 <= base
    ensures Delay(a, base, cap) <= Delay(b, base, cap)
  {
    var x, y := if a == 0 then 0 else a - 1, if b == 0 then 0 else b - 1;
    Pow2Grows(x, y);
    ProductGrows(base, Pow2(x), Pow2(y));
  }

  /** The first delay is the base, and each further attempt doubles it, up to the
      maximum. */
  lemma DelayDoubles(a: nat, base: int, cap: int)
    requires 0 <= base && 0 <= cap
    ensures a <= 1 ==> Delay(a, base, cap) == if base <= cap then base else cap
    ensures a >= 1 ==>
      Delay(a + 1, base, cap) == if 2 * Delay(a, base, cap) <= cap then 2 * Delay(a, base, cap) else cap
  {
    assert Pow2(0) == 1;
    if a >= 1 {
      assert Pow2(a) == 2 * Pow2(a - 1);
      Pow2Grows(a - 1, a - 1);
      ProductGrows(base, 0, Pow2(a - 1));
      assert base * Pow2(a) == 2 * (base * Pow2(a - 1));
    }
  }

  /** Every delay lies between the configured base and maximum exactly when the
      base is not negative, which Validate does not check. */
  lemma DelayInRange(base: int, cap: int)
    requires base <= cap
    ensures (forall attempts: nat :: base <= Delay(attempts, base, cap) <= cap) <==> 0 <= base
  {
    if 0 <= base {
      forall attempts: nat ensures base <= Delay(attempts, base, cap) <= cap {
        DelayGrows(0, attempts, base, cap);
        assert Pow2(0) == 1;
        assert Delay(0, base, cap) == base;
      }
    } else {
      assert Pow2(1) == 2 * Pow2(0) == 2;
      assert Delay(2, base, cap) == 2 * base < base;
    }
  }

  function Elements(s: seq<JobId>): set<JobId> {
    set id | id in s
  }

  lemma StillNotAfter(rows: Table)
    ensures forall a, s, t :: t <= s && NotAfter(rows, a, s) ==> NotAfter(rows, a, t)
  {
  }

  lemma ElementsSnoc(s: seq<JobId>, id: JobId)
    ensures Elements(s + [id]) == Elements(s) + {id}
    ensures Elements([]) == {}
  {
  }

  /** The inner SELECT: up to `limit` of `all`, oldest first. */
  method SelectOldest(rows: Table, all: set<JobId>, limit: nat) returns (batch: seq<JobId>)
    requires all <= rows.Keys
    ensures Elements(batch) <= all && |Elements(batch)| == |batch| == Min(limit, |all|)
    ensures forall a :: a in Elements(batch) ==> NotAfter(rows, a, all - Elements(batch))
    ensures forall a :: a in batch ==> a in all
    ensures forall a, b :: a in batch && b in all && b !in batch ==> rows[a].sub.createdAt <= rows[b].sub.createdAt
  {
    hide Elements, NotAfter;
    var left := all;
    batch := [];
    ElementsSnoc([], "");
    while |batch| < limit && left != {}
      invariant Elements(batch) + left == all && Elements(batch) !! left && |Elements(batch)| == |batch| <= limit
      invariant forall a :: a in Elements(batch) ==> NotAfter(rows, a, left)
      decreases left
    {
      HasOldest(rows, left);
      StillNotAfter(rows);
      var id :| id in left && NotAfter(rows, id, left);
      ElementsSnoc(batch, id);
      batch, left := batch + [id], left - {id};
    }
    assert all - Elements(batch) == left;
    assert |all| == |Elements(batch)| + |left|;
    InOrder(rows, all, batch);
  }

  // ---- JobRepo -----------------------------------------------------------

  datatype RetryResult = Rescheduled | Exhausted | NotFound

  class JobRepo {
    var rows: Table

    constructor ()
      ensures rows == map[]
    {
      rows := map[];
    }

    /** Any uniqueness violation is reported as a duplicate key. Rows without a key do
        not clash. */
    method Create(id: JobId, sub: Submission) returns (ok: bool)
      modifies this
      ensures ok <==> id !in old(rows) && (sub.key != "" ==> forall j :: j in old(rows) ==> old(rows)[j].sub.key != sub.key)
      ensures !ok ==> rows == old(rows)
      ensures ok ==> rows == old(rows)[id := Row(Pending, 0, "", "", "", None, None, None, sub)]
      ensures ok <==> Insertable(old(rows), id, sub.key)
      ensures rows == if ok then old(rows)[id := NewRow(sub)] else old(rows)
      ensures TableOk(old(rows)) ==> TableOk(rows)
    {
      ok := Insertable(rows, id, sub.key);
      if ok {
        rows := rows[id := NewRow(sub)];
      }
    }

    method GetByIdempotencyKey(key: string) returns (res: Option<JobId>)
      ensures res.Some? ==> key != "" && res.value in rows && rows[res.value].sub.key == key
      ensures res.None? ==> key == "" || forall j :: j in rows ==> rows[j].sub.key != key
      ensures KeysUnique(rows) && res.Some? ==> forall j :: j in rows && rows[j].sub.key == key ==> j == res.value
    {
      if j :| j in rows && rows[j].sub.key == key && key != "" {
        res := Some(j);
      } else {
        res := None;
      }
    }

    /** `locked` are the rows that other claims hold locked at this moment. The
        batch comes back in no particular order of the rows' ids. */
    method ClaimBatch(worker: string, until: Time, limit: nat, now: Time, locked: set<JobId>)
      returns (batch: seq<JobId>)
      modifies this
      ensures rows.Keys == old(rows).Keys && |batch| <= limit
      ensures forall i, j :: 0 <= i < j < |batch| ==> batch[i] != batch[j]
      ensures forall id :: id in batch ==>
        && id in old(rows) && id !in locked && old(rows)[id].status == Pending
        && (old(rows)[id].nextAttemptAt == None || old(rows)[id].nextAttemptAt.value <= now)
        && rows[id] == old(rows)[id].(status := Processing, attempts := old(rows)[id].attempts + 1,
                                      leaseUntil := Some(until), lockedBy := worker, nextAttemptAt := None)
      ensures forall id :: id in rows && id !in batch ==> rows[id] == old(rows)[id]
      ensures forall b ::
        && b in old(rows) && b !in locked && b !in batch && old(rows)[b].status == Pending
        && (old(rows)[b].nextAttemptAt == None || old(rows)[b].nextAttemptAt.value <= now) ==>
        |batch| == limit && forall a :: a in batch ==> old(rows)[a].sub.createdAt <= old(rows)[b].sub.createdAt
      ensures OldestDue(old(rows), now, locked, limit, Elements(batch)) && |Elements(batch)| == |batch|
      ensures rows == ClaimAll(old(rows), Elements(batch), worker, until)
      ensures TableOk(old(rows)) ==> TableOk(rows)
    {
      batch := SelectOldest(rows, Candidates(rows, now, locked), limit);
      ClaimKeepsTableOk(rows, Elements(batch), worker, until, now, locked);
      OldestDueSpelledOut(rows, now, locked, limit, Elements(batch));
      InBatch(batch);
      hide OldestDue, TableOk, Elements, Candidates;
      rows := ClaimAll(rows, Elements(batch), worker, until);
    }

    /** Whoever asks: there is no check of the owner. */
    method ExtendLease(id: JobId, until: Time) returns (found: bool)
      modifies this
      ensures found <==> id in old(rows) && old(rows)[id].status == Processing
      ensures rows == if found then old(rows)[id := old(rows)[id].(leaseUntil := Some(until))] else old(rows)
      ensures rows == if found then old(rows)[id := ExtendRow(old(rows)[id], until)] else old(rows)
      ensures TableOk(old(rows)) ==> TableOk(rows)
    {
      found := Hits(rows, id);
      if found {
        rows := rows[id := ExtendRow(rows[id], until)];
      }
    }

    method Complete(id: JobId, summary: string, now: Time) returns (found: bool)
      modifies this
      ensures found <==> id in old(rows) && old(rows)[id].status == Processing
      ensures !found ==> rows == old(rows)
      ensures found ==> rows == old(rows)[id :=
        old(rows)[id].(status := Completed, result := summary, error := "", leaseUntil := None, lockedBy := "",
                       completedAt := Some(now))]
      ensures rows == if found then old(rows)[id := CompleteRow(old(rows)[id], summary, now)] else old(rows)
      ensures TableOk(old(rows)) ==> TableOk(rows)
    {
      found := Hits(rows, id);
      if found {
        rows := rows[id := CompleteRow(rows[id], summary, now)];
      }
    }

    method Retry(id: JobId, message: string, maxAttempts: int, base: int, cap: int, now: Time)
      returns (res: RetryResult)
      modifies this
      ensures res.NotFound? <==> !(id in old(rows) && old(rows)[id].status == Processing)
      ensures res.NotFound? ==> rows == old(rows)
      ensures res.Rescheduled? <==>
        id in old(rows) && old(rows)[id].status == Processing && old(rows)[id].attempts < maxAttempts
      ensures res.Rescheduled? ==> rows == old(rows)[id :=
        old(rows)[id].(status := Pending, error := message, leaseUntil := None, lockedBy := "", completedAt := None,
                       nextAttemptAt := Some(now + Delay(old(rows)[id].attempts, base, cap)))]
      ensures res.Exhausted? ==> rows == old(rows)[id :=
        old(rows)[id].(status := Failed, error := message, leaseUntil := None, lockedBy := "", completedAt := Some(now),
                       nextAttemptAt := None)]
      ensures rows == if res.NotFound? then old(rows)
                      else old(rows)[id := RetryRow(old(rows)[id], message, maxAttempts, base, cap, now)]
      ensures TableOk(old(rows)) ==> TableOk(rows)
    {
      if !Hits(rows, id) {
        return NotFound;
      }
      rows := rows[id := RetryRow(rows[id], message, maxAttempts, base, cap, now)];
      res := if rows[id].status.Pending? then Rescheduled else Exhausted;
    }

    method Fail(id: JobId, message: string, now: Time) returns (found: bool)
      modifies this
      ensures found <==> id in old(rows) && old(rows)[id].status == Processing
      ensures !found ==> rows == old(rows)
      ensures found ==> rows == old(rows)[id :=
        old(rows)[id].(status := Failed, error := message, leaseUntil := None, lockedBy := "", nextAttemptAt := None,
                       completedAt := Some(now))]
      ensures rows == if found then old(rows)[id := FailRow(old(rows)[id], message, now)] else old(rows)
      ensures TableOk(old(rows)) ==> TableOk(rows)
    {
      found := Hits(rows, id);
      if found {
        rows := rows[id := FailRow(rows[id], message, now)];
      }
    }

    method ReapExpired(now: Time) returns (n: nat)
      modifies this
      ensures rows.Keys == old(rows).Keys
      ensures forall id :: id in rows ==>
        if old(rows)[id].status == Processing && old(rows)[id].leaseUntil != None && old(rows)[id].leaseUntil.value < now
        then rows[id] == old(rows)[id].(status := Pending, leaseUntil := None, lockedBy := "",
                                        error := "lease expired, requeued")
        else rows[id] == old(rows)[id]
      ensures n == |set id | id in old(rows) && rows[id] != old(rows)[id]|
      ensures rows == ReapAll(old(rows), now)
      ensures TableOk(old(rows)) ==> TableOk(rows)
      ensures TableOk(old(rows)) ==> forall id :: id in rows ==> !Expired(rows[id], now)
    {
      hide ReapAll, TableOk;
      ReapSpelledOut(rows, now);
      n := |set id | id in rows && Expired(rows[id], now)|;
      rows := ReapAll(rows, now);
    }
  }

  /** A reap writes exactly the rows whose lease has run out, and leaves none. */
  lemma ReapSpelledOut(rows: Table, now: Time)
    ensures var t := ReapAll(rows, now);
      && t.Keys == rows.Keys
      && (set id | id in rows && Expired(rows[id], now)) == (set id | id in rows && t[id] != rows[id])
      && forall id :: id in t ==> if Expired(rows[id], now) then t[id] == ReapRow(rows[id]) else t[id] == rows[id]
    ensures TableOk(rows) ==> TableOk(ReapAll(rows, now))
  {
  }

  /** The inner SELECT by the columns: what it leaves behind is not older than what
      it takes, and it leaves nothing behind before the limit is reached. */
  lemma OldestDueSpelledOut(rows: Table, now: Time, locked: set<JobId>, limit: nat, chosen: set<JobId>)
    requires OldestDue(rows, now, locked, limit, chosen)
    ensures |chosen| <= limit
    ensures forall a :: a in chosen ==>
      && a in rows && a !in locked && rows[a].status == Pending
      && (rows[a].nextAttemptAt == None || rows[a].nextAttemptAt.value <= now)
    ensures forall b ::
      && b in rows && b !in locked && b !in chosen && rows[b].status == Pending
      && (rows[b].nextAttemptAt == None || rows[b].nextAttemptAt.value <= now) ==>
      |chosen| == limit && forall a :: a in chosen ==> rows[a].sub.createdAt <= rows[b].sub.createdAt
  {
    var all := Candidates(rows, now, locked);
    forall b | b in all && b !in chosen
      ensures |chosen| == limit && forall a :: a in chosen ==> rows[a].sub.createdAt <= rows[b].sub.createdAt
    {
      if |chosen| == |all| {
        SameSize(chosen, all);
      }
      forall a | a in chosen ensures rows[a].sub.createdAt <= rows[b].sub.createdAt {
        assert NotAfter(rows, a, all - chosen);
      }
    }
  }

  lemma InBatch(batch: seq<JobId>)
    requires |Elements(batch)| == |batch|
    ensures forall id :: id in batch <==> id in Elements(batch)
    ensures forall i, j :: 0 <= i < j < |batch| ==> batch[i] != batch[j]
  {
    FullSize(batch);
  }

  lemma InOrder(rows: Table, all: set<JobId>, batch: seq<JobId>)
    requires all <= rows.Keys && Elements(batch) <= all
    requires forall a :: a in Elements(batch) ==> NotAfter(rows, a, all - Elements(batch))
    ensures forall a :: a in batch ==> a in all
    ensures forall a, b :: a in batch && b in all && b !in batch ==> rows[a].sub.createdAt <= rows[b].sub.createdAt
  {
    forall a | a in batch ensures a in all {
      assert a in Elements(batch);
    }
    forall a, b | a in batch && b in all && b !in batch ensures rows[a].sub.createdAt <= rows[b].sub.createdAt {
      assert a in Elements(batch) && b in all - Elements(batch);
    }
  }

  lemma {:induction false} FullSize(batch: seq<JobId>)
    ensures |Elements(batch)| <= |batch|
    ensures |Elements(batch)| == |batch| ==> forall i, j :: 0 <= i < j < |batch| ==> batch[i] != batch[j]
  {
    if batch != [] {
      var n := |batch| - 1;
      FullSize(batch[..n]);
      assert batch == batch[..n] + [batch[n]];
      ElementsSnoc(batch[..n], batch[n]);
      assert Elements(batch) == Elements(batch[..n]) + {batch[n]};
      if batch[n] in Elements(batch[..n]) {
        assert Elements(batch) == Elements(batch[..n]);
      }
    } else {
      ElementsSnoc([], "");
    }
  }

  lemma SameSize(a: set<JobId>, b: set<JobId>)
    requires a <= b && |a| == |b|
    ensures a == b
  {
    assert |b| == |a| + |b - a|;
  }

  lemma {:induction false} HasOldest(rows: Table, s: set<JobId>)
    requires s != {} && s <= rows.Keys
    ensures exists id :: id in s && NotAfter(rows, id, s)
  {
    var x :| x in s;
    if s != {x} {
      var rest := s - {x};
      HasOldest(rows, rest);
      var y :| y in rest && NotAfter(rows, y, rest);
      var least := if rows[x].sub.createdAt <= rows[y].sub.createdAt then x else y;
      assert NotAfter(rows, least, s);
    } else {
      assert NotAfter(rows, x, s);
    }
  }

  lemma ClaimKeepsTableOk(rows: Table, chosen: set<JobId>, worker: string, until: Time, now: Time, locked: set<JobId>)
    requires chosen <= Candidates(rows, now, locked)
    ensures TableOk(rows) ==> TableOk(ClaimAll(rows, chosen, worker, until))
  {
  }
}
