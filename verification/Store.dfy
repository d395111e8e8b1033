/** The object store's upload of a body of unknown length, as one goroutine
    runs it: the pooled buffers, the producer, and `Put` against a store that
    accepts every request. Workers and failures are in `UploadProtocol`. */
module Store {
  import opened Chunking
  import opened Int64
  import opened Prelude
  import opened Streaming

  datatype PartJob = PartJob(num: nat, buf: array<byte>, n: nat)

  datatype PutResult = Stored(body: seq<byte>, written: nat) | PutFailed(cause: ReadErr) | Cancelled | Panicked

  /** sync.Pool of part-sized buffers. Their contents are whatever the last user
      left in them, and the pool may forget a buffer at any time. */
  class BufferPool {
    const size: nat
    var free: set<array<byte>>
    /** Gets minus Puts. */
    ghost var out: int

    ghost predicate Valid()
      reads this
    {
      size > 0 && forall b :: b in free ==> b.Length == size
    }

    constructor (size: nat)
      requires size > 0
      ensures Valid() && free == {} && this.size == size
    {
      this.size, free, out := size, {}, 0;
    }

    method Get() returns (b: array<byte>)
      requires Valid()
      modifies this
      ensures Valid() && b.Length == size
      ensures b !in free && free == old(free) - {b}
      ensures (b in old(free) || fresh(b)) && out == old(out) + 1
    {
      out := out + 1;
      var reuse: bool := *;
      if reuse && free != {} {
        b :| b in free;
        free := free - {b};
      } else {
        b := new byte[size];
      }
    }

    /** Every queued buffer goes back, uploaded or drained. */
    method PutAll(q: PartQueue)
      requires Valid() && q.Intact() && forall b :: b in q.bufs ==> b.Length == size
      modifies this
      ensures Valid() && free == old(free) + q.bufs && out == old(out) - |q.jobs|
    {
      hide PartQueue.Intact, BuffersOf, Valid;
      var jobs := q.jobs;
      QueuedBuffers(q, size);
      BuffersNext(jobs, 0);
      for i := 0 to |jobs|
        invariant Valid() && free == old(free) + BuffersOf(jobs[..i]) && out == old(out) - i
      {
        BuffersNext(jobs, i);
        Put(jobs[i].buf);
      }
    }

    method Put(b: array<byte>)
      requires Valid() && b.Length == size
      modifies this
      ensures Valid() && free == old(free) + {b} && out == old(out) - 1
    {
      free, out := free + {b}, out - 1;
    }
  }

  function BuffersOf(jobs: seq<PartJob>): set<array<byte>> {
    if jobs == [] then {} else BuffersOf(jobs[..|jobs| - 1]) + {jobs[|jobs| - 1].buf}
  }

  lemma QueuedBuffers(q: PartQueue, size: nat)
    requires q.Intact() && forall b :: b in q.bufs ==> b.Length == size
    ensures forall i :: 0 <= i < |q.jobs| ==> q.jobs[i].buf.Length == size
    ensures q.bufs == BuffersOf(q.jobs[..|q.jobs|])
  {
    assert q.jobs[..|q.jobs|] == q.jobs;
  }

  lemma BuffersNext(jobs: seq<PartJob>, i: nat)
    ensures BuffersOf(jobs[..0]) == {}
    ensures i < |jobs| ==> BuffersOf(jobs[..i + 1]) == BuffersOf(jobs[..i]) + {jobs[i].buf}
  {
    assert i < |jobs| ==> jobs[..i + 1][..i] == jobs[..i];
  }

  /** The jobs channel. `sent` remembers the bytes each job carried when it was
      sent, and `bufs` the buffers it holds. */
  class PartQueue {
    /** Can the request context be done while parts are sent? */
    const mayEnd: bool
    var jobs: seq<PartJob>
    ghost var sent: seq<seq<byte>>
    ghost var bufs: set<array<byte>>

    constructor (mayEnd: bool)
      ensures jobs == [] && sent == [] && bufs == {} && this.mayEnd == mayEnd
    {
      this.mayEnd, jobs, sent, bufs := mayEnd, [], [], {};
    }

    /** Job i is part i + 1, has a buffer of its own, and nobody has written to
        that buffer since the job was sent. */
    ghost predicate Intact()
      reads this, bufs
    {
      && |jobs| == |sent| == |bufs| && bufs == BuffersOf(jobs)
      && (forall i :: 0 <= i < |jobs| ==> jobs[i].num == i + 1 && jobs[i].buf in bufs)
      && (forall i :: 0 <= i < |jobs| ==> jobs[i].n <= jobs[i].buf.Length && jobs[i].buf[..jobs[i].n] == sent[i])
    }

    /** The select in produceParts: either the job goes in, or the context is
        done first. */
    method Send(job: PartJob) returns (ok: bool)
      requires Intact()
      requires job.buf !in bufs && job.num == |jobs| + 1 && job.n <= job.buf.Length
      modifies this
      ensures Intact() && |jobs| == |sent|
      ensures ok ==> jobs == old(jobs) + [job] && sent == old(sent) + [job.buf[..job.n]]
      ensures ok ==> bufs == old(bufs) + {job.buf}
      ensures !ok ==> mayEnd && jobs == old(jobs) && sent == old(sent) && bufs == old(bufs)
    {
      ok := *;
      if ok || !mayEnd {
        ok := true;
        assert (jobs + [job])[..|jobs|] == jobs;
        jobs, sent, bufs := jobs + [job], sent + [job.buf[..job.n]], bufs + {job.buf};
      }
    }
  }

  /** `sent` are the first parts of `body`, all full, up to offset `n`. */
  ghost predicate FullUpTo(sent: seq<seq<byte>>, body: seq<byte>, n: nat, size: nat) {
    && n <= |body| && size > 0
    && Concat(sent) == body[..n]
    && forall i :: 0 <= i < |sent| ==> |sent[i]| == size
  }

  /** The next part as the producer adds it: nothing when the fill was empty. */
  function WithPart(sent: seq<seq<byte>>, part: seq<byte>): seq<seq<byte>> {
    if part == [] then sent else sent + [part]
  }

  lemma EmptyIsIntact(q: PartQueue)
    requires q.jobs == [] && q.sent == [] && q.bufs == {}
    ensures q.Intact()
  {
    assert BuffersOf(q.jobs) == {};
  }

  lemma NothingSent(body: seq<byte>, size: nat)
    requires size > 0
    ensures FullUpTo([], body, 0, size) && WellCut([], size)
  {
  }

  lemma NextPart(sent: seq<seq<byte>>, body: seq<byte>, start: nat, part: seq<byte>, size: nat)
    requires FullUpTo(sent, body, start, size)
    requires start + |part| <= |body| && part == body[start..start + |part|] && |part| <= size
    ensures WellCut(WithPart(sent, part), size)
    ensures |part| == size ==> FullUpTo(WithPart(sent, part), body, start + size, size)
    ensures start + |part| == |body| ==> WithPart(sent, part) == Blocks(body, size)
  {
    Slices(body, 0, start, start + |part|);
    ConcatSnoc(sent, part);
    assert Concat(WithPart(sent, part)) == body[..start + |part|];
    CutIsUnique(WithPart(sent, part), size);
    assert body[..|body|] == body;
  }

  /** What both ends of one turn of the producer's loop agree on. */
  ghost predicate Producing(pool: BufferPool, q: PartQueue)
    reads pool, q, q.bufs
  {
    pool.Valid() && q.Intact() && pool.free !! q.bufs && forall b :: b in q.bufs ==> b.Length == pool.size
  }

  /** A body can be refused for two reasons only: it is longer than the cap, and
      then the reader says so, or the client's reader failed. */
  ghost predicate Refused(r: CappedReader, cause: ReadErr)
    reads r, r.src
  {
    && r.Doomed() && cause != EOF
    && (r.exceeded <==> |r.body| > r.max)
    && cause == if r.exceeded then TooLarge else r.src.fate
  }

  datatype ProduceEnd = AllSent | ReadFailed(cause: ReadErr) | ContextDone

  /** Writing to other buffers leaves the queued parts as they were sent. */
  twostate lemma StillIntact(q: PartQueue)
    requires old(q.Intact()) && unchanged(q)
    requires forall b :: b in q.bufs ==> unchanged(b)
    ensures q.Intact()
  {
    forall i | 0 <= i < |q.jobs|
      ensures q.jobs[i].n <= q.jobs[i].buf.Length && q.jobs[i].buf[..q.jobs[i].n] == q.sent[i]
    {
      var job := q.jobs[i];
      assert job.buf[..job.n] == old(job.buf[..job.n]);
    }
  }

  /** `getBuf` and `fill`. */
  method FetchAndFill(r: CappedReader, pool: BufferPool)
    returns (buf: array<byte>, n: nat, err: Option<ReadErr>, panicked: bool)
    requires r.Valid() && pool.Valid() && !r.exceeded
    modifies r, r.src, pool, pool.free
    ensures pool.Valid() && pool.out == old(pool.out) + 1
    ensures pool.free == old(pool.free) - {buf} && (buf in old(pool.free) || fresh(buf))
    ensures panicked <==> !Sliceable(r.max)
    ensures buf.Length == pool.size && (!panicked ==> FillEnds(r, old(r.n), n, pool.size, err))
    ensures n <= pool.size && old(r.n) + n <= |r.body| && buf[..n] == r.body[old(r.n)..old(r.n) + n]
  {
    buf := pool.Get();
    n, err, panicked := Fill(r, buf);
  }

  /** The filled buffer goes to the queue, or back to the pool when it is empty
      or the context is done. */
  method SendOrReturn(pool: BufferPool, q: PartQueue, buf: array<byte>, n: nat, partNum: nat)
    returns (cancelled: bool)
    requires Producing(pool, q) && partNum == |q.jobs| + 1 && |q.jobs| == |q.sent|
    requires buf.Length == pool.size && n <= pool.size && buf !in pool.free && buf !in q.bufs
    modifies pool, q
    ensures Producing(pool, q) && |q.jobs| == |q.sent|
    ensures q.sent == if cancelled then old(q.sent) else WithPart(old(q.sent), buf[..n])
    ensures cancelled ==> q.mayEnd
    ensures pool.out - |q.jobs| == old(pool.out - |q.jobs|) - 1
    ensures cancelled || n == 0 ==> q.bufs == old(q.bufs) && pool.free == old(pool.free) + {buf}
    ensures !cancelled && n > 0 ==> q.bufs == old(q.bufs) + {buf} && pool.free == old(pool.free)
  {
    hide PartQueue.Intact;
    cancelled := false;
    if n > 0 {
      var sent := q.Send(PartJob(partNum, buf, n));
      if !sent {
        pool.Put(buf);
        cancelled := true;
      }
    } else {
      pool.Put(buf);
    }
  }

  /** One turn of the loop in produceParts. `err` is the fill's error. */
  method ProducePart(r: CappedReader, pool: BufferPool, q: PartQueue, partNum: nat)
    returns (n: nat, err: Option<ReadErr>, cancelled: bool)
    requires Producing(pool, q) && r.Valid() && !r.exceeded && Sliceable(r.max)
    requires partNum == |q.jobs| + 1 && |q.jobs| == |q.sent|
    modifies r, r.src, pool, q, pool.free
    ensures Producing(pool, q) && |q.jobs| == |q.sent| && FillEnds(r, old(r.n), n, pool.size, err)
    ensures cancelled ==> q.mayEnd
    ensures pool.out - |q.jobs| == old(pool.out - |q.jobs|)
    ensures q.sent == if cancelled then old(q.sent) else WithPart(old(q.sent), r.body[old(r.n)..old(r.n) + n])
    ensures old(pool.free + q.bufs) <= pool.free + q.bufs
    ensures fresh(pool.free + q.bufs - old(pool.free + q.bufs)) && fresh(pool.free - old(pool.free))
  {
    hide PartQueue.Intact;
    var buf;
    var panicked;
    buf, n, err, panicked := FetchAndFill(r, pool);
    StillIntact(q);
    cancelled := SendOrReturn(pool, q, buf, n, partNum);
  }

  /** The loop of produceParts, `partNum` being the number of the next part. */
  method ProduceRest(r: CappedReader, pool: BufferPool, q: PartQueue, firstNum: nat)
    returns (end: ProduceEnd)
    requires Producing(pool, q) && r.Valid() && !r.exceeded && r.n > 0
    requires firstNum == |q.jobs| + 1 && |q.jobs| == |q.sent|
    requires FullUpTo(q.sent, r.body, r.n, pool.size) && WellCut(q.sent, pool.size)
    modifies r, r.src, pool, q, pool.free
    ensures Producing(pool, q) && WellCut(q.sent, pool.size) && r.Valid()
    ensures end.AllSent? ==> q.sent == Blocks(r.body, pool.size) && !r.Doomed() && !r.exceeded
    ensures end.ReadFailed? ==> Refused(r, end.cause)
    ensures end.ContextDone? ==> q.mayEnd
    ensures pool.out - |q.jobs| == old(pool.out - |q.jobs|)
    ensures old(pool.free + q.bufs) <= pool.free + q.bufs
    ensures fresh(pool.free + q.bufs - old(pool.free + q.bufs))
  {
    hide FullUpTo, WellCut, Blocks, Concat, Producing;
    var partNum := firstNum;
    ghost var held := pool.free + q.bufs;
    while true
      invariant pool.out - |q.jobs| == old(pool.out - |q.jobs|)
      invariant Producing(pool, q) && r.Valid() && !r.exceeded
      invariant partNum == |q.jobs| + 1 && |q.jobs| == |q.sent|
      invariant FullUpTo(q.sent, r.body, r.n, pool.size) && WellCut(q.sent, pool.size)
      invariant held <= pool.free + q.bufs && fresh(pool.free + q.bufs - held)
      invariant fresh(pool.free - old(pool.free))
      decreases |r.body| - r.n
    {
      ghost var start, before := r.n, q.sent;
      var n, err, cancelled := ProducePart(r, pool, q, partNum);
      if cancelled {
        return ContextDone;
      }
      NextPart(before, r.body, start, r.body[start..start + n], pool.size);
      if err == Some(EOF) {
        return AllSent;
      } else if err.Some? {
        return ReadFailed(err.value);
      }
      partNum := partNum + 1;
    }
  }

  /** produceParts, entered with the full first buffer that putAuto read. */
  method ProduceParts(r: CappedReader, pool: BufferPool, q: PartQueue, firstBuf: array<byte>)
    returns (end: ProduceEnd)
    requires pool.Valid() && firstBuf.Length == pool.size && firstBuf !in pool.free
    requires q.jobs == [] && q.sent == [] && q.bufs == {}
    requires r.Valid() && !r.exceeded && r.n == pool.size && firstBuf[..] == r.body[..r.n]
    modifies r, r.src, pool, q, pool.free
    ensures Producing(pool, q) && WellCut(q.sent, pool.size)
    ensures end.AllSent? ==> q.sent == Blocks(r.body, pool.size) && !r.Doomed() && !r.exceeded
    ensures end.ReadFailed? ==> Refused(r, end.cause)
    ensures end.ContextDone? ==> q.mayEnd
    ensures pool.out - |q.jobs| == old(pool.out) - 1
    ensures old(pool.free) + {firstBuf} <= pool.free + q.bufs
    ensures fresh(pool.free + q.bufs - old(pool.free) - {firstBuf})
  {
    hide FullUpTo, WellCut, Blocks, Concat, PartQueue.Intact;
    NothingSent(r.body, pool.size);
    EmptyIsIntact(q);
    var sent := q.Send(PartJob(1, firstBuf, pool.size));
    if !sent {
      pool.Put(firstBuf);
      return ContextDone;
    }
    assert firstBuf[..pool.size] == firstBuf[..] == r.body[0..0 + pool.size];
    NextPart([], r.body, 0, firstBuf[..], pool.size);
    assert q.sent == WithPart([], firstBuf[..]);
    end := ProduceRest(r, pool, q, 2);
  }

  /** CompleteMultipartUpload as the store carries it out: the uploaded parts,
      in the order of the manifest, become the object. */
  method Assemble(q: PartQueue) returns (stored: seq<byte>)
    requires q.Intact()
    ensures stored == Concat(q.sent)
  {
    stored := [];
    for i := 0 to |q.jobs|
      invariant stored == Concat(q.sent[..i])
    {
      ConcatSnoc(q.sent[..i], q.sent[i]);
      assert q.sent[..i + 1] == q.sent[..i] + [q.sent[i]];
      stored := stored + q.jobs[i].buf[..q.jobs[i].n];
    }
    assert q.sent[..|q.jobs|] == q.sent;
  }

  /** putAuto against a store that accepts every request. `mayEnd` says whether the
      request context can be done meanwhile. A panic of the reader, which strikes
      at the first read or never, takes the buffer in hand with it. */
  method PutAuto(r: CappedReader, pool: BufferPool, mayEnd: bool) returns (res: PutResult)
    requires r.Valid() && !r.exceeded && r.n == 0 && pool.Valid()
    modifies r, r.src, pool, pool.free
    ensures pool.Valid() && pool.out == old(pool.out) + if res.Panicked? then 1 else 0
    ensures !res.Panicked? ==> old(pool.free) <= pool.free
    ensures res.Stored? ==> !r.Doomed() && !r.exceeded && res.body == r.body && res.written == |r.body|
    ensures res.PutFailed? ==> Refused(r, res.cause)
    ensures res.Cancelled? ==> mayEnd && |r.body| >= pool.size
    ensures res.Panicked? <==> !Sliceable(r.max)
  {
    hide WellCut, Blocks, Concat, PartQueue.Intact;
    var buf, n, err, panicked := FetchAndFill(r, pool);
    if panicked {
      return Panicked;
    }
    assert r.body[0..0 + n] == r.body[..n];
    if err == Some(EOF) {
      res := Stored(buf[..n], n);
      pool.Put(buf);
      return;
    }
    if err.Some? {
      pool.Put(buf);
      return PutFailed(err.value);
    }
    var q := new PartQueue(mayEnd);
    assert buf[..n] == buf[..];
    var end := ProduceParts(r, pool, q, buf);
    match end {
      case AllSent =>
        var stored := Assemble(q);
        BlocksCutTheBody(r.body, pool.size);
        res := Stored(stored, |stored|);
      case ReadFailed(cause) =>
        res := PutFailed(cause);
      case ContextDone =>
        res := Cancelled;
    }
    pool.PutAll(q);
  }

  datatype Attachment =
    | Attached(stored: seq<byte>, size: nat)
    | NotValid
    | Shed
    | TooLong
    | ReaderFailed(cause: ReadErr)
    | Aborted
    | Crashed

  /** The file's type is in the table and its head passes the check. */
  predicate Passes(rule: Option<Rule>, body: seq<byte>, fate: ReadErr) {
    && rule.Some? && rule.value.verify(body[..Min(SNIFF_LEN, |body|)])
    && (|body| >= SNIFF_LEN || fate == EOF || fate == UnexpectedEOF)
  }

  /** The handler's attachFile over a store that accepts every request: sniff, wait
      for a slot, cap and put. `Aborted` is the request context being done, which
      can only happen if it may end, and then at any send; `Crashed` is the panic
      of a reader whose configured limit it cannot work with. */
  method AttachFile(src: Source, rule: Option<Rule>, sniffBuf: array<byte>, pool: BufferPool, slot: bool, mayEnd: bool)
    returns (res: Attachment)
    requires sniffBuf.Length == SNIFF_LEN && (rule.Some? ==> IsInt64(rule.value.max))
    requires pool.Valid() && sniffBuf !in pool.free
    modifies src, sniffBuf, pool, pool.free
    ensures pool.Valid() && pool.out == old(pool.out) + if res.Crashed? then 1 else 0
    ensures !res.Crashed? ==> old(pool.free) <= pool.free
    ensures res.NotValid? <==> !Passes(rule, old(src.rest), src.fate)
    ensures res.Shed? <==> Passes(rule, old(src.rest), src.fate) && !slot
    ensures res.Crashed? <==> Passes(rule, old(src.rest), src.fate) && slot && !Sliceable(rule.value.max)
    ensures !res.NotValid? && !res.Shed? && !res.Crashed? ==>
      var body, max := old(src.rest), rule.value.max;
      match res
      case Attached(stored, size) => |body| <= max && src.fate == EOF && stored == body && size == |body|
      case TooLong => |body| > max
      case ReaderFailed(cause) => |body| <= max && src.fate != EOF && cause == src.fate
      case _ => mayEnd && |body| >= pool.size
  {
    var checked := ValidateFile(src, rule, sniffBuf);
    if !checked.Ok? {
      return NotValid;
    }
    if !slot {
      return Shed;
    }
    var r := checked.value;
    var put := PutAuto(r, pool, mayEnd);
    match put {
      case Stored(body, written) => res := Attached(body, written);
      case PutFailed(cause) => res := if r.exceeded then TooLong else ReaderFailed(cause);
      case Cancelled => res := Aborted;
      case Panicked => res := Crashed;
    }
  }
}
