/** Every step of an upload keeps the invariant, whatever the interleaving. */
module UploadSafety {
  import opened Chunking
  import opened Bags
  import opened UploadProtocol

  // ---- buffers -----------------------------------------------------------

  /** A buffer that is held is nowhere else. */
  lemma HeldOnce(c: Params, s: State, b: BufId)
    requires Owned(c, s) && b in Held(s)
    ensures b in s.mem.bytes && b !in s.mem.free && b !in s.mem.foreign && Held(s)[b] == 1
  {
    hide Held;
    assert multiset(s.mem.bytes.Keys)[b] <= 1;
    assert multiset(s.mem.bytes.Keys)[b] == multiset(s.mem.free)[b] + multiset(s.mem.foreign)[b] + Held(s)[b];
  }

  /** Handing one held buffer back to the pool. */
  lemma FreeKeepsOwned(c: Params, s: State, t: State, b: BufId)
    requires Owned(c, s) && t.mem == Free(s.mem, b) && Held(s) == Held(t) + multiset{b}
    ensures Owned(c, t)
  {
    hide Held;
    HeldOnce(c, s, b);
    assert multiset(t.mem.free) == multiset(s.mem.free) + multiset{b};
    assert multiset(t.mem.free) + multiset(t.mem.foreign) + Held(t)
        == multiset(s.mem.free) + multiset(s.mem.foreign) + Held(s);
  }

  /** Only the caller's buffer changes hands. */
  lemma MainChange(s: State, t: State)
    requires t.queue == s.queue && t.workers == s.workers
    ensures MainBufs(t.main) == MainBufs(s.main) ==> Held(t) == Held(s)
    ensures MainBufs(t.main) == multiset{} ==> Held(s) == Held(t) + MainBufs(s.main)
    ensures MainBufs(s.main) == multiset{} ==> Held(t) == Held(s) + MainBufs(t.main)
  {
    hide Bag;
  }

  /** The holders change among themselves. */
  lemma SameHeld(c: Params, s: State, t: State)
    requires Owned(c, s) && t.mem == s.mem && Held(t) == Held(s)
    ensures Owned(c, t)
  {
    hide Held;
  }

  lemma GetBufKeepsOwned(c: Params, s: State, b: BufId)
    requires Owned(c, s) && CanGetBuf(s, b)
    ensures Owned(c, DoGetBuf(c, s, b))
  {
    hide Held;
    var t := DoGetBuf(c, s, b);
    MainChange(s, t);
    assert Held(t) == Held(s) + multiset{b};
    if b in s.mem.free {
      assert multiset(s.mem.free) == multiset(t.mem.free) + multiset{b};
    } else {
      assert multiset(t.mem.bytes.Keys) == multiset(s.mem.bytes.Keys) + multiset{b};
    }
  }

  lemma FilledKeepsOwned(c: Params, s: State, data: seq<byte>, scratch: seq<byte>, end: ReadEnd, patience: nat)
    requires Owned(c, s) && CanRead(c, s, data, scratch, end, patience)
    ensures Owned(c, Filled(c, s, data, scratch, end, patience))
  {
    hide Bag;
    var t := Filled(c, s, data, scratch, end, patience);
    assert t.mem.bytes.Keys == s.mem.bytes.Keys;
    assert Held(t) == Held(s);
  }

  lemma AfterReadKeepsOwned(c: Params, s: State, end: ReadEnd)
    requires Owned(c, s) && s.main.Filling?
    ensures Owned(c, AfterRead(c, s, end))
  {
    hide Held, Owned;
    var t := AfterRead(c, s, end);
    MainChange(s, t);
    if t.main.Closed() {
      FreeKeepsOwned(c, s, t, s.main.buf);
    } else {
      SameHeld(c, s, t);
    }
  }

  lemma ReadKeepsOwned(c: Params, s: State, data: seq<byte>, scratch: seq<byte>, end: ReadEnd, patience: nat)
    requires Owned(c, s) && CanRead(c, s, data, scratch, end, patience)
    ensures Owned(c, AfterRead(c, Filled(c, s, data, scratch, end, patience), end))
  {
    hide Owned, AfterRead;
    FilledKeepsOwned(c, s, data, scratch, end, patience);
    AfterReadKeepsOwned(c, Filled(c, s, data, scratch, end, patience), end);
  }

  /** The caller gives up the buffer in hand: single put, failed creation,
      cancelled send. */
  lemma ReleaseKeepsOwned(c: Params, s: State, t: State)
    requires Owned(c, s) && (s.main.SinglePut? || s.main.Creating? || s.main.Sending?)
    requires t.queue == s.queue && t.workers == s.workers && MainBufs(t.main) == multiset{}
    requires t.mem == Free(s.mem, s.main.buf)
    ensures Owned(c, t)
  {
    hide Held, Owned;
    MainChange(s, t);
    FreeKeepsOwned(c, s, t, s.main.buf);
  }

  lemma CreateKeepsOwned(c: Params, s: State, ok: bool, applied: bool)
    requires Owned(c, s) && s.main.Creating? && s.workers == []
    ensures Owned(c, DoCreate(c, s, ok, applied))
  {
    hide Owned;
    var t := DoCreate(c, s, ok, applied);
    if ok {
      BagEmpty(t.workers, WorkerBufs);
      assert Held(t) == Held(s);
      SameHeld(c, s, t);
    } else {
      ReleaseKeepsOwned(c, s, t);
    }
  }

  lemma SendKeepsOwned(c: Params, s: State)
    requires Owned(c, s) && CanSend(c, s)
    ensures Owned(c, DoSend(c, s))
  {
    hide Owned, Bag;
    var t := DoSend(c, s);
    BagSnoc(s.queue, t.queue[|s.queue|], JobBufs);
    assert t.queue == s.queue + [t.queue[|s.queue|]];
    assert Held(t) == Held(s);
    SameHeld(c, s, t);
  }

  lemma DrainKeepsOwned(c: Params, s: State)
    requires Owned(c, s) && s.queue != []
    ensures Owned(c, DoDrainOne(s))
  {
    hide Owned;
    var t := DoDrainOne(s);
    assert Held(s) == Held(t) + multiset{s.queue[0].buf};
    FreeKeepsOwned(c, s, t, s.queue[0].buf);
  }

  lemma TakeKeepsOwned(c: Params, s: State, i: nat)
    requires Owned(c, s) && IsWorker(s, i) && s.workers[i].Idle? && s.queue != []
    ensures Owned(c, DoTake(s, i))
  {
    hide Owned;
    var t := DoTake(s, i);
    BagUpdate(s.workers, i, t.workers[i], WorkerBufs);
    assert Bag(s.queue, JobBufs) == multiset{s.queue[0].buf} + Bag(t.queue, JobBufs);
    assert Bag(t.workers, WorkerBufs) == Bag(s.workers, WorkerBufs) + multiset{s.queue[0].buf};
    assert Held(t) == Held(s);
    SameHeld(c, s, t);
  }

  /** A worker moves on and keeps its buffer, or never had one. */
  lemma WorkerKeepsOwned(c: Params, s: State, t: State, i: nat, w: Worker)
    requires Owned(c, s) && IsWorker(s, i) && WorkerBufs(w) == WorkerBufs(s.workers[i])
    requires t.mem == s.mem && t.main == s.main && t.queue == s.queue && t.workers == s.workers[i := w]
    ensures Owned(c, t)
  {
    hide Owned, Bag;
    BagUpdate(s.workers, i, w, WorkerBufs);
    SameCount(Bag(t.workers, WorkerBufs), Bag(s.workers, WorkerBufs), WorkerBufs(w));
    SameHeld(c, s, t);
  }

  lemma SameCount<T>(a: multiset<T>, b: multiset<T>, x: multiset<T>)
    requires a + x == b + x
    ensures a == b
  {
    forall e: T ensures a[e] == b[e] {
      assert (a + x)[e] == (b + x)[e];
    }
  }

  lemma PutBackKeepsOwned(c: Params, s: State, i: nat)
    requires Owned(c, s) && IsWorker(s, i) && s.workers[i].Returning?
    ensures Owned(c, DoPutBack(s, i))
  {
    hide Owned, Bag;
    var t := DoPutBack(s, i);
    BagUpdate(s.workers, i, t.workers[i], WorkerBufs);
    assert Bag(s.workers, WorkerBufs) == Bag(t.workers, WorkerBufs) + multiset{s.workers[i].job.buf};
    assert Held(s) == Held(t) + multiset{s.workers[i].job.buf};
    FreeKeepsOwned(c, s, t, s.workers[i].job.buf);
  }

  /** Nothing that holds a buffer changes. */
  lemma QuietKeepsOwned(c: Params, s: State, t: State)
    requires Owned(c, s)
    requires t.mem == s.mem && t.queue == s.queue && t.workers == s.workers && MainBufs(t.main) == MainBufs(s.main)
    ensures Owned(c, t)
  {
    hide Owned, Held;
    MainChange(s, t);
    SameHeld(c, s, t);
  }

  lemma OthersKeepOwned(c: Params, s: State, mem: Memory)
    requires Tolerates(c, Held(s), s.mem, mem)
    ensures Owned(c, s.(mem := mem))
  {
    hide Bag;
    assert Held(s.(mem := mem)) == Held(s);
  }

  lemma UploadDoneKeepsOwned(c: Params, s: State, i: nat, ok: bool, applied: bool)
    requires Owned(c, s) && CanUpload(s, i)
    ensures Owned(c, DoUpload(s, i, ok, applied))
  {
    hide Owned, Held;
    var t := DoUpload(s, i, ok, applied);
    WorkerKeepsOwned(c, s, t, i, t.workers[i]);
  }

  lemma IdlingKeepsOwned(c: Params, s: State, a: Action)
    requires Owned(c, s) && Enabled(c, s, a) && (a.Record? || a.Exit?)
    ensures Owned(c, Next(c, s, a))
  {
    hide Owned, Held;
    var t := Next(c, s, a);
    WorkerKeepsOwned(c, s, t, a.i, t.workers[a.i]);
  }

  lemma WorkerStepKeepsOwned(c: Params, s: State, a: Action)
    requires Owned(c, s) && Enabled(c, s, a) && a.ByWorker()
    ensures Owned(c, Next(c, s, a))
  {
    hide Owned, Held, DoUpload, DoTake, DoPutBack, DoRecord, DoExit;
    match a
    case Take(i) => TakeKeepsOwned(c, s, i);
    case UploadDone(i, ok, applied) => UploadDoneKeepsOwned(c, s, i, ok, applied);
    case PutBack(i) => PutBackKeepsOwned(c, s, i);
    case _ => IdlingKeepsOwned(c, s, a);
  }

  lemma ClosingStepKeepsOwned(c: Params, s: State, a: Action)
    requires Owned(c, s) && Enabled(c, s, a) && a.Closing()
    ensures Owned(c, Next(c, s, a))
  {
    hide Owned, Held, Acceptable, Sort;
    if a.DrainOne? {
      DrainKeepsOwned(c, s);
    } else {
      QuietKeepsOwned(c, s, Next(c, s, a));
    }
  }

  /** At every step each buffer keeps exactly one holder. */
  lemma StepKeepsOwned(c: Params, s: State, a: Action)
    requires Owned(c, s) && Enabled(c, s, a) && (s.main.Early() ==> s.workers == [])
    ensures Owned(c, Next(c, s, a))
  {
    if a.ByWorker() {
      WorkerStepKeepsOwned(c, s, a);
    } else if a.Closing() {
      ClosingStepKeepsOwned(c, s, a);
    } else {
      ProducerStepKeepsOwned(c, s, a);
    }
  }

  lemma ProducerStepKeepsOwned(c: Params, s: State, a: Action)
    requires Owned(c, s) && Enabled(c, s, a) && (s.main.Early() ==> s.workers == [])
    requires !a.ByWorker() && !a.Closing()
    ensures Owned(c, Next(c, s, a))
  {
    hide Owned, Held, Tolerates, CanRead, Filled, AfterRead;
    var t := Next(c, s, a);
    match a
    case Cancel => QuietKeepsOwned(c, s, t);
    case Others(mem) => OthersKeepOwned(c, s, mem);
    case GetBuf(b) => GetBufKeepsOwned(c, s, b);
    case Read(data, scratch, end, patience) => ReadKeepsOwned(c, s, data, scratch, end, patience);
    case SinglePutDone(_, _) => ReleaseKeepsOwned(c, s, t);
    case CreateDone(ok, applied) => CreateKeepsOwned(c, s, ok, applied);
    case Send => SendKeepsOwned(c, s);
    case GiveUp => ReleaseKeepsOwned(c, s, t);
  }

  // ---- part numbers ------------------------------------------------------

  lemma SendKeepsNumbered(c: Params, s: State)
    requires Numbered(s) && CanSend(c, s)
    ensures Numbered(DoSend(c, s))
  {
    hide Bag;
    var t := DoSend(c, s);
    var k := |s.log.sent|;
    BagSnoc(s.queue, t.queue[|s.queue|], JobNums);
    assert t.queue == s.queue + [t.queue[|s.queue|]];
    assert Placed(t) == Placed(s) + multiset{k + 1};
    assert multiset(UpTo(k + 1)) == multiset(UpTo(k)) + multiset{k + 1};
  }

  lemma DrainKeepsNumbered(s: State)
    requires Numbered(s) && s.queue != []
    ensures Numbered(DoDrainOne(s))
  {
    var t := DoDrainOne(s);
    assert Bag(s.queue, JobNums) == multiset{s.queue[0].num} + Bag(t.queue, JobNums);
    assert Placed(t) == Placed(s);
  }

  lemma TakeKeepsNumbered(s: State, i: nat)
    requires Numbered(s) && IsWorker(s, i) && s.workers[i].Idle? && s.queue != []
    ensures Numbered(DoTake(s, i))
  {
    var t := DoTake(s, i);
    BagUpdate(s.workers, i, t.workers[i], WorkerNums);
    assert Bag(s.queue, JobNums) == multiset{s.queue[0].num} + Bag(t.queue, JobNums);
    assert Bag(t.workers, WorkerNums) == Bag(s.workers, WorkerNums) + multiset{s.queue[0].num};
    assert Placed(t) == Placed(s);
  }

  /** A worker keeps its number, or passes it to `parts` or to `lost`. */
  lemma WorkerKeepsNumbered(s: State, t: State, i: nat, w: Worker, passed: multiset<nat>)
    requires Numbered(s) && IsWorker(s, i) && WorkerNums(s.workers[i]) == WorkerNums(w) + passed
    requires t.queue == s.queue && t.workers == s.workers[i := w] && |t.log.sent| == |s.log.sent|
    requires multiset(t.log.parts) + t.log.lost == multiset(s.log.parts) + s.log.lost + passed
    ensures Numbered(t)
  {
    hide Bag;
    BagUpdate(s.workers, i, w, WorkerNums);
    SameCount(Bag(t.workers, WorkerNums) + passed, Bag(s.workers, WorkerNums), WorkerNums(w));
    assert Placed(t) == Bag(t.queue, JobNums) + Bag(t.workers, WorkerNums) + (multiset(t.log.parts) + t.log.lost);
    assert Placed(t) == Placed(s);
  }

  lemma PutBackKeepsNumbered(s: State, i: nat)
    requires Numbered(s) && IsWorker(s, i) && s.workers[i].Returning?
    ensures Numbered(DoPutBack(s, i))
  {
    hide Numbered;
    var t := DoPutBack(s, i);
    var passed := if s.workers[i].ok then multiset{} else multiset{s.workers[i].job.num};
    WorkerKeepsNumbered(s, t, i, t.workers[i], passed);
  }

  lemma RecordKeepsNumbered(s: State, i: nat)
    requires Numbered(s) && IsWorker(s, i) && s.workers[i].Recording?
    ensures Numbered(DoRecord(s, i))
  {
    hide Numbered;
    var t := DoRecord(s, i);
    WorkerKeepsNumbered(s, t, i, Idle, multiset{s.workers[i].num});
  }

  lemma WorkerStepKeepsNumbered(c: Params, s: State, a: Action)
    requires Numbered(s) && Enabled(c, s, a) && a.ByWorker()
    ensures Numbered(Next(c, s, a))
  {
    hide Numbered, DoPutBack, DoRecord, DoTake;
    var t := Next(c, s, a);
    match a
    case Take(i) => TakeKeepsNumbered(s, i);
    case UploadDone(i, _, _) => WorkerKeepsNumbered(s, t, i, t.workers[i], multiset{});
    case PutBack(i) => PutBackKeepsNumbered(s, i);
    case Record(i) => RecordKeepsNumbered(s, i);
    case Exit(i) => WorkerKeepsNumbered(s, t, i, t.workers[i], multiset{});
  }

  /** Every part number stays in exactly one place. */
  lemma StepKeepsNumbered(c: Params, s: State, a: Action)
    requires Numbered(s) && Enabled(c, s, a) && (s.main.Early() ==> s.workers == [])
    ensures Numbered(Next(c, s, a))
  {
    hide Bag, Acceptable, Sort, Tolerates, CanRead, Held;
    if a.ByWorker() {
      WorkerStepKeepsNumbered(c, s, a);
    } else if a.Send? {
      SendKeepsNumbered(c, s);
    } else if a.DrainOne? {
      DrainKeepsNumbered(s);
    } else if a.CreateDone? && a.ok {
      BagEmpty(Next(c, s, a).workers, WorkerNums);
      BagEmpty(s.workers, WorkerNums);
      assert Placed(Next(c, s, a)) == Placed(s);
    } else {
      assert Placed(Next(c, s, a)) == Placed(s);
    }
  }

  // ---- control -----------------------------------------------------------

  lemma WorkerStepKeepsControl(c: Params, s: State, a: Action)
    requires Shape(c, s) && Staffed(s) && Enabled(c, s, a) && a.ByWorker()
    ensures Shape(c, Next(c, s, a)) && Staffed(Next(c, s, a))
  {
    var t := Next(c, s, a);
    assert |t.workers| == |s.workers|;
    forall i | 0 <= i < |t.workers| && t.workers[i].Died? ensures t.flags.partFailed {
      assert i != a.i ==> t.workers[i] == s.workers[i];
    }
    forall i | 0 <= i < |t.workers| && t.workers[i].Exited? ensures t.main.Closed() && t.queue == [] {
      assert i != a.i ==> t.workers[i] == s.workers[i];
    }
  }

  /** A part can only be left over in the channel when every worker died. */
  lemma LeftOver(c: Params, s: State)
    requires c.Valid() && Shape(c, s) && Staffed(s) && s.main.Draining? && s.queue != []
    ensures s.flags.partFailed
  {
    assert s.workers[0].Gone();
  }

  lemma ClosingStepKeepsControl(c: Params, s: State, a: Action)
    requires c.Valid() && Shape(c, s) && Staffed(s) && Enabled(c, s, a) && a.Closing()
    ensures Shape(c, Next(c, s, a)) && Staffed(Next(c, s, a))
  {
    hide Sort, Assembled, Acceptable;
    if a.DrainOne? {
      LeftOver(c, s);
    }
  }

  lemma ProducerStepKeepsControl(c: Params, s: State, a: Action)
    requires c.Valid() && Shape(c, s) && Staffed(s) && Enabled(c, s, a) && !a.ByWorker() && !a.Closing()
    ensures Shape(c, Next(c, s, a)) && Staffed(Next(c, s, a))
  {
    hide Tolerates, Held;
  }

  lemma StepKeepsControl(c: Params, s: State, a: Action)
    requires c.Valid() && Shape(c, s) && Staffed(s) && Enabled(c, s, a)
    ensures Shape(c, Next(c, s, a)) && Staffed(Next(c, s, a))
  {
    hide Shape, Staffed, Next;
    if a.ByWorker() {
      WorkerStepKeepsControl(c, s, a);
    } else if a.Closing() {
      ClosingStepKeepsControl(c, s, a);
    } else {
      ProducerStepKeepsControl(c, s, a);
    }
  }

  // ---- the body ----------------------------------------------------------

  lemma FilledKeepsAccounted(c: Params, s: State, data: seq<byte>, scratch: seq<byte>, end: ReadEnd, patience: nat)
    requires Accounted(c, s) && CanRead(c, s, data, scratch, end, patience)
    ensures Accounted(c, Filled(c, s, data, scratch, end, patience))
  {
    hide Concat, WellCut;
    var t := Filled(c, s, data, scratch, end, patience);
    var old', new' := s.mem.bytes[s.main.buf], t.mem.bytes[s.main.buf];
    assert new'[..t.main.n] == old'[..s.main.n] + data;
    assert data + s.rest[|data|..] == s.rest;
    assert Concat(s.log.sent) + InHand(t) + t.rest == Concat(s.log.sent) + InHand(s) + s.rest;
  }

  lemma AfterReadKeepsAccounted(c: Params, s: State, end: ReadEnd)
    requires c.Valid() && Accounted(c, s) && s.main.Filling? && (s.main.first ==> s.workers == [])
    requires end.Eof? ==> !c.doomed && s.rest == []
    requires end.Failed? ==> c.doomed
    ensures Accounted(c, AfterRead(c, s, end))
  {
    hide Concat, WellCut;
    var t := AfterRead(c, s, end);
    if t.main.Waiting? && end.Eof? {
      assert InHand(s) == [];
      assert Concat(s.log.sent) + [] + [] == Concat(s.log.sent);
    } else if !t.main.Closed() {
      assert InHand(t) == InHand(s);
    }
  }

  lemma ReadKeepsAccounted(c: Params, s: State, data: seq<byte>, scratch: seq<byte>, end: ReadEnd, patience: nat)
    requires c.Valid() && Accounted(c, s) && CanRead(c, s, data, scratch, end, patience)
    requires s.main.first ==> s.workers == []
    ensures Accounted(c, AfterRead(c, Filled(c, s, data, scratch, end, patience), end))
  {
    hide Accounted, AfterRead;
    FilledKeepsAccounted(c, s, data, scratch, end, patience);
    AfterReadKeepsAccounted(c, Filled(c, s, data, scratch, end, patience), end);
  }

  lemma SendKeepsAccounted(c: Params, s: State)
    requires Accounted(c, s) && CanSend(c, s)
    ensures Accounted(c, DoSend(c, s))
  {
    hide Concat;
    var t := DoSend(c, s);
    var part := s.mem.bytes[s.main.buf][..s.main.n];
    ConcatSnoc(s.log.sent, part);
    assert Concat(s.log.sent) + part + s.rest == c.body;
    assert Concat(t.log.sent) + [] + s.rest == c.body;
    assert s.rest == [] ==> Concat(t.log.sent) == c.body;
  }

  lemma OthersKeepAccounted(c: Params, s: State, mem: Memory)
    requires Owned(c, s) && Accounted(c, s) && Tolerates(c, Held(s), s.mem, mem)
    ensures Accounted(c, s.(mem := mem))
  {
    hide Concat, WellCut, Bag;
    forall b | b in MainBufs(s.main) ensures b in mem.bytes && b in s.mem.bytes && mem.bytes[b] == s.mem.bytes[b] {
      assert b in Held(s);
      HeldOnce(c, s, b);
    }
    assert InHand(s.(mem := mem)) == InHand(s);
  }

  lemma ProducerStepKeepsAccounted(c: Params, s: State, a: Action)
    requires c.Valid() && Owned(c, s) && Accounted(c, s) && Enabled(c, s, a) && !a.ByWorker() && !a.Closing()
    requires s.main.Early() ==> s.workers == [] && s.log.sent == []
    requires s.main.Sending? || s.main.Fetch? ==> s.workers != []
    ensures Accounted(c, Next(c, s, a))
  {
    hide Concat, WellCut, Owned, Tolerates, Held, Filled, AfterRead;
    var t := Next(c, s, a);
    match a
    case Cancel => assert InHand(t) == InHand(s);
    case Others(mem) => OthersKeepAccounted(c, s, mem);
    case GetBuf(b) => assert InHand(t) == [];
    case Read(data, scratch, end, patience) => ReadKeepsAccounted(c, s, data, scratch, end, patience);
    case SinglePutDone(_, _) =>
    case CreateDone(ok, _) => assert ok ==> InHand(t) == InHand(s);
    case Send => SendKeepsAccounted(c, s);
    case GiveUp =>
  }

  /** Steps that touch neither the body nor the buffer in hand. */
  lemma QuietKeepsAccounted(c: Params, s: State, t: State)
    requires Accounted(c, s)
    requires t.mem.bytes == s.mem.bytes && t.rest == s.rest && t.log.sent == s.log.sent
    requires t.flags.produceFailed == s.flags.produceFailed && (t.workers == [] <==> s.workers == [])
    requires t.main == s.main || (s.main.Closed() && t.main.Closed())
    ensures Accounted(c, t)
  {
    hide Concat, WellCut;
    assert InHand(t) == InHand(s);
  }

  lemma WorkerStepKeepsAccounted(c: Params, s: State, a: Action)
    requires Accounted(c, s) && Enabled(c, s, a) && a.ByWorker()
    ensures Accounted(c, Next(c, s, a))
  {
    hide Accounted;
    QuietKeepsAccounted(c, s, Next(c, s, a));
  }

  lemma ClosingStepKeepsAccounted(c: Params, s: State, a: Action)
    requires Accounted(c, s) && Enabled(c, s, a) && a.Closing()
    ensures Accounted(c, Next(c, s, a))
  {
    hide Accounted, Sort, Acceptable, Assembled;
    QuietKeepsAccounted(c, s, Next(c, s, a));
  }

  /** The body stays accounted for. */
  lemma StepKeepsAccounted(c: Params, s: State, a: Action)
    requires c.Valid() && Owned(c, s) && Shape(c, s) && Accounted(c, s) && Enabled(c, s, a)
    ensures Accounted(c, Next(c, s, a))
  {
    hide Accounted, Owned, Enabled, Next;
    if a.ByWorker() {
      WorkerStepKeepsAccounted(c, s, a);
    } else if a.Closing() {
      ClosingStepKeepsAccounted(c, s, a);
    } else {
      ProducerStepKeepsAccounted(c, s, a);
    }
  }

  // ---- the bytes under way -----------------------------------------------

  /** Buffers of queued jobs and of workers. */
  function Busy(s: State): multiset<BufId> {
    Bag(s.queue, JobBufs) + Bag(s.workers, WorkerBufs)
  }

  lemma BusyBuffers(s: State)
    ensures forall i :: 0 <= i < |s.queue| ==> s.queue[i].buf in Busy(s)
    ensures forall i :: 0 <= i < |s.workers| && s.workers[i].Uploading? ==> s.workers[i].job.buf in Busy(s)
    ensures forall i :: 0 <= i < |s.workers| && s.workers[i].Returning? ==> s.workers[i].job.buf in Busy(s)
  {
    forall i | 0 <= i < |s.queue| ensures s.queue[i].buf in Busy(s) {
      BagMember(s.queue, i, JobBufs);
    }
    forall i | 0 <= i < |s.workers| ensures WorkerBufs(s.workers[i]) <= Busy(s) {
      BagMember(s.workers, i, WorkerBufs);
    }
    assert forall i :: 0 <= i < |s.workers| && s.workers[i].Uploading? ==> s.workers[i].job.buf in WorkerBufs(s.workers[i]);
    assert forall i :: 0 <= i < |s.workers| && s.workers[i].Returning? ==> s.workers[i].job.buf in WorkerBufs(s.workers[i]);
  }

  /** A step that leaves the busy buffers alone leaves everything faithful. */
  lemma FrameKeepsFaithful(s: State, t: State)
    requires Faithful(s)
    requires t.queue == s.queue && t.workers == s.workers && t.log == s.log && t.s3.stored == s.s3.stored
    requires forall b :: b in Busy(s) && b in s.mem.bytes ==> b in t.mem.bytes && t.mem.bytes[b] == s.mem.bytes[b]
    ensures Faithful(t)
  {
    hide Busy, SizeOf;
    BusyBuffers(s);
    forall i | 0 <= i < |t.workers| ensures WorkerRight(t, t.workers[i]) {
      assert WorkerRight(s, s.workers[i]);
    }
    forall i | 0 <= i < |t.queue| ensures Carries(t, t.queue[i]) {
      assert Carries(s, s.queue[i]);
    }
    forall i | 0 <= i < |t.log.parts| ensures HasPart(t, t.log.parts[i]) {
      assert HasPart(s, s.log.parts[i]);
    }
  }

  /** The caller writes to a buffer that nobody else holds. */
  lemma InHandIsNotBusy(c: Params, s: State)
    requires Owned(c, s) && s.main.Filling?
    ensures s.main.buf !in Busy(s)
  {
    hide Bag;
    assert Held(s) == multiset{s.main.buf} + Busy(s);
    HeldOnce(c, s, s.main.buf);
  }

  lemma HeldIsBusy(s: State)
    ensures Busy(s) <= Held(s)
  {
    hide Bag;
  }

  lemma ReadKeepsFaithful(c: Params, s: State, data: seq<byte>, scratch: seq<byte>, end: ReadEnd, patience: nat)
    requires Owned(c, s) && Faithful(s) && CanRead(c, s, data, scratch, end, patience)
    ensures Faithful(AfterRead(c, Filled(c, s, data, scratch, end, patience), end))
  {
    hide Faithful, Busy, Owned;
    InHandIsNotBusy(c, s);
    FrameKeepsFaithful(s, AfterRead(c, Filled(c, s, data, scratch, end, patience), end));
  }

  lemma GetBufKeepsFaithful(c: Params, s: State, b: BufId)
    requires Owned(c, s) && Faithful(s) && CanGetBuf(s, b)
    ensures Faithful(DoGetBuf(c, s, b))
  {
    hide Faithful, Held, Busy;
    HeldIsBusy(s);
    forall b | b in Busy(s) ensures b in s.mem.bytes && b !in s.mem.free {
      HeldOnce(c, s, b);
    }
    FrameKeepsFaithful(s, DoGetBuf(c, s, b));
  }

  lemma OthersKeepFaithful(c: Params, s: State, mem: Memory)
    requires Faithful(s) && Tolerates(c, Held(s), s.mem, mem)
    ensures Faithful(s.(mem := mem))
  {
    hide Faithful, Held, Busy;
    HeldIsBusy(s);
    FrameKeepsFaithful(s, s.(mem := mem));
  }

  lemma {:induction false} SizeOfExtends(nums: seq<nat>, sent: seq<seq<byte>>, part: seq<byte>)
    requires forall i :: 0 <= i < |nums| ==> 1 <= nums[i] <= |sent|
    ensures SizeOf(nums, sent + [part]) == SizeOf(nums, sent)
  {
    if nums != [] {
      SizeOfExtends(nums[..|nums| - 1], sent, part);
    }
  }

  /** More parts sent and more parts stored: what held still holds. */
  lemma Monotone(s: State, t: State)
    requires t.mem.bytes == s.mem.bytes && s.log.sent <= t.log.sent
    requires forall k :: k in s.s3.stored && 1 <= k <= |s.log.sent| ==> k in t.s3.stored && t.s3.stored[k] == s.s3.stored[k]
    ensures forall j :: Carries(s, j) ==> Carries(t, j)
    ensures forall k :: HasPart(s, k) ==> HasPart(t, k)
    ensures forall w :: WorkerRight(s, w) ==> WorkerRight(t, w)
  {
  }

  lemma SendKeepsFaithful(c: Params, s: State)
    requires Faithful(s) && CanSend(c, s)
    ensures Faithful(DoSend(c, s))
  {
    hide SizeOf, WorkerRight, Carries, HasPart;
    var t := DoSend(c, s);
    Monotone(s, t);
    FreshJob(c, s);
    PartNumbers(s);
    SizeOfExtends(s.log.parts, s.log.sent, t.log.sent[|s.log.sent|]);
    assert t.queue == s.queue + [t.queue[|s.queue|]];
    assert forall i :: 0 <= i < |s.queue| ==> t.queue[i] == s.queue[i];
  }

  lemma PartNumbers(s: State)
    requires Faithful(s)
    ensures forall i :: 0 <= i < |s.log.parts| ==> 1 <= s.log.parts[i] <= |s.log.sent|
  {
    assert forall i :: 0 <= i < |s.log.parts| ==> HasPart(s, s.log.parts[i]);
  }

  lemma FreshJob(c: Params, s: State)
    requires CanSend(c, s)
    ensures var t := DoSend(c, s); Carries(t, t.queue[|s.queue|])
  {
  }

  lemma UploadKeepsFaithful(s: State, i: nat, ok: bool, applied: bool)
    requires Faithful(s) && CanUpload(s, i)
    ensures Faithful(DoUpload(s, i, ok, applied))
  {
    hide SizeOf;
    var t := DoUpload(s, i, ok, applied);
    assert WorkerRight(s, s.workers[i]);
    Monotone(s, t);
    assert forall k :: 0 <= k < |s.workers| && k != i ==> t.workers[k] == s.workers[k];
  }

  /** A worker moves on without touching the bytes or the store. */
  lemma WorkerKeepsFaithful(s: State, t: State, i: nat, w: Worker)
    requires Faithful(s) && IsWorker(s, i) && WorkerRight(s, w)
    requires t.mem.bytes == s.mem.bytes && t.s3.stored == s.s3.stored && t.workers == s.workers[i := w]
    requires t.log.sent == s.log.sent && t.log.parts == s.log.parts && t.log.total == s.log.total
    requires t.queue == s.queue || (s.queue != [] && t.queue == s.queue[1..])
    ensures Faithful(t)
  {
    hide SizeOf, WorkerRight, Carries, HasPart;
    Monotone(s, t);
  }

  lemma RecordKeepsFaithful(s: State, i: nat)
    requires Faithful(s) && IsWorker(s, i) && s.workers[i].Recording?
    ensures Faithful(DoRecord(s, i))
  {
    var t := DoRecord(s, i);
    var num := s.workers[i].num;
    assert WorkerRight(s, s.workers[i]);
    Monotone(s, t);
    assert t.log.parts[..|s.log.parts|] == s.log.parts;
    assert forall k :: 0 <= k < |s.workers| && k != i ==> t.workers[k] == s.workers[k];
  }

  lemma WorkerStepKeepsFaithful(c: Params, s: State, a: Action)
    requires Faithful(s) && Enabled(c, s, a) && a.ByWorker()
    ensures Faithful(Next(c, s, a))
  {
    hide SizeOf, HasPart, Carries, DoUpload, DoRecord;
    var t := Next(c, s, a);
    assert WorkerRight(s, s.workers[a.i]);
    match a
    case Take(i) => WorkerKeepsFaithful(s, t, i, Uploading(s.queue[0]));
    case UploadDone(i, ok, applied) => UploadKeepsFaithful(s, i, ok, applied);
    case PutBack(i) => PutBackKeepsFaithful(s, i);
    case Record(i) => RecordKeepsFaithful(s, i);
    case Exit(i) => WorkerKeepsFaithful(s, t, i, Exited);
  }

  lemma PutBackKeepsFaithful(s: State, i: nat)
    requires Faithful(s) && IsWorker(s, i) && s.workers[i].Returning?
    ensures Faithful(DoPutBack(s, i))
  {
    var t := DoPutBack(s, i);
    assert WorkerRight(s, s.workers[i]);
    assert WorkerRight(s, t.workers[i]);
    hide SizeOf, HasPart, Carries, WorkerRight, Faithful;
    WorkerKeepsFaithful(s, t, i, t.workers[i]);
  }

  /** The bytes under way stay what they were when sent. */
  lemma StepKeepsFaithful(c: Params, s: State, a: Action)
    requires Owned(c, s) && Shape(c, s) && Faithful(s) && Enabled(c, s, a)
    ensures Faithful(Next(c, s, a))
  {
    hide Faithful, Owned, Held, Busy, Sort, Acceptable, Assembled, CanRead, CanSend, CanGetBuf, Tolerates;
    if a.ByWorker() {
      WorkerStepKeepsFaithful(c, s, a);
    } else {
      CallerStepKeepsFaithful(c, s, a);
    }
  }

  lemma CallerStepKeepsFaithful(c: Params, s: State, a: Action)
    requires Owned(c, s) && Faithful(s) && Enabled(c, s, a) && !a.ByWorker()
    requires s.main.Early() ==> s.workers == [] && s.log.parts == []
    ensures Faithful(Next(c, s, a))
  {
    hide Faithful, Owned, Held, Busy, Sort, Acceptable, Assembled, Tolerates, Filled, AfterRead, DoSend, DoGetBuf;
    var t := Next(c, s, a);
    match a
    case Others(mem) => OthersKeepFaithful(c, s, mem);
    case GetBuf(b) => GetBufKeepsFaithful(c, s, b);
    case Read(data, scratch, end, patience) => ReadKeepsFaithful(c, s, data, scratch, end, patience);
    case CreateDone(ok, applied) => CreateKeepsFaithful(c, s, ok, applied);
    case Send => SendKeepsFaithful(c, s);
    case DrainOne => DrainKeepsFaithful(s);
    case _ => FrameKeepsFaithful(s, t);
  }

  lemma CreateKeepsFaithful(c: Params, s: State, ok: bool, applied: bool)
    requires Faithful(s) && s.main.Creating? && s.workers == []
    ensures Faithful(DoCreate(c, s, ok, applied))
  {
    hide SizeOf;
    var t := DoCreate(c, s, ok, applied);
    Monotone(s, t);
  }

  lemma DrainKeepsFaithful(s: State)
    requires Faithful(s) && s.queue != []
    ensures Faithful(DoDrainOne(s))
  {
    hide SizeOf;
    Monotone(s, DoDrainOne(s));
  }
}
