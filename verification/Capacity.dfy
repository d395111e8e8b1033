/** All uploads of a process together: each holds one slot from before its first
    buffer until after its last, so memory stays below the reported peak. */
module Capacity {
  import opened Bags
  import opened Int64
  import U = UploadProtocol
  import UploadResults

  /** S3_PART_SIZE, S3_PART_CONCURRENCY and MAX_CONCURRENT_UPLOADS. */
  datatype Config = Config(partSize: int, partConcurrency: int, maxUploads: int) {
    predicate Valid() { partSize >= 5 * 0x10_0000 && partConcurrency >= 1 && maxUploads >= 1 }

    /** NewHandler clamps the number of slots. */
    function Slots(): nat { if maxUploads < 1 then 1 else maxUploads }

    /** The real worst case. */
    function Peak(): int { partSize * (1 + 2 * partConcurrency) * Slots() }
  }

  /** PeakUploadBytes, in int64. */
  function PeakUploadBytes(c: Config): int {
    Wrap64(Wrap64(c.partSize * Wrap64(1 + Wrap64(2 * c.partConcurrency))) * c.maxUploads)
  }

  // ---- the uploads of one process ----------------------------------------

  /** A request that asks for a slot, uploads while it holds one, or has none. */
  datatype Upload = Asking | Working(p: U.Params, s: U.State) | Left

  datatype State = State(uploads: seq<Upload>, used: nat)

  /** Shed covers both the timeout and the cancelled request. */
  datatype Action =
    | Arrive
    | Acquire(i: nat, p: U.Params, s: U.State)
    | Shed(i: nat)
    | Work(i: nat, a: U.Action)
    | Release(i: nat)

  ghost predicate Enabled(c: Config, st: State, a: Action) {
    if a.Arrive? then true
    else
      && a.i < |st.uploads|
      && var u := st.uploads[a.i];
      match a
      case Acquire(_, p, s) =>
        && u.Asking? && st.used < c.Slots()
        && p.partSize == c.partSize && p.workers == c.partConcurrency && U.Start(p, s)
      case Shed(_) => u.Asking?
      case Work(_, b) => u.Working? && U.Enabled(u.p, u.s, b)
      case Release(_) => u.Working? && u.s.main.Finished?
      case _ => false
  }

  function NextUpload(u: Upload, a: Action): Upload
    requires a.Work? ==> u.Working? && U.Enabled(u.p, u.s, a.a)
  {
    match a
    case Acquire(_, p, s) => Working(p, s)
    case Work(_, b) => Working(u.p, U.Next(u.p, u.s, b))
    case _ => Left
  }

  function Next(c: Config, st: State, a: Action): State
    requires Enabled(c, st, a)
  {
    if a.Arrive? then State(st.uploads + [Asking], st.used)
    else
      State(st.uploads[a.i := NextUpload(st.uploads[a.i], a)],
            if a.Acquire? then st.used + 1 else if a.Release? && st.used > 0 then st.used - 1 else st.used)
  }

  ghost predicate IsRun(c: Config, st: State, run: seq<Action>, t: State)
    decreases |run|
  {
    if run == [] then st == t
    else Enabled(c, st, run[0]) && IsRun(c, Next(c, st, run[0]), run[1..], t)
  }

  /** The part buffers a request has checked out. */
  function Buffers(u: Upload): nat {
    if u.Working? then |U.Held(u.s)| else 0
  }

  function AllBuffers(us: seq<Upload>): nat {
    Total(us, Buffers)
  }

  function Slot(u: Upload): nat {
    if u.Working? then 1 else 0
  }

  function Workings(us: seq<Upload>): nat {
    Total(us, Slot)
  }

  ghost predicate UploadOk(c: Config, u: Upload) {
    u.Working? ==> u.p.partSize == c.partSize && u.p.workers == c.partConcurrency && U.Inv(u.p, u.s)
  }

  ghost predicate Inv(c: Config, st: State) {
    && Workings(st.uploads) == st.used <= c.Slots()
    && forall i :: 0 <= i < |st.uploads| ==> UploadOk(c, st.uploads[i])
  }

  lemma StepKeepsUploadOk(c: Config, st: State, a: Action)
    requires c.Valid() && Inv(c, st) && Enabled(c, st, a) && !a.Arrive?
    ensures UploadOk(c, NextUpload(st.uploads[a.i], a))
  {
    hide U.Inv, U.Start, U.Enabled, U.Next, Workings;
    assert UploadOk(c, st.uploads[a.i]);
    if a.Acquire? {
      UploadResults.StartHasInv(a.p, a.s);
    } else if a.Work? {
      UploadResults.StepKeepsInv(st.uploads[a.i].p, st.uploads[a.i].s, a.a);
    }
  }

  lemma StepKeepsInv(c: Config, st: State, a: Action)
    requires c.Valid() && Inv(c, st) && Enabled(c, st, a)
    ensures Inv(c, Next(c, st, a))
  {
    hide U.Inv, U.Start, U.Enabled, U.Next, Total;
    if a.Arrive? {
      TotalSnoc(st.uploads, Asking, Slot);
    } else {
      StepKeepsUploadOk(c, st, a);
      TotalUpdate(st.uploads, a.i, NextUpload(st.uploads[a.i], a), Slot);
    }
  }

  lemma {:induction false} RunKeepsInv(c: Config, st: State, run: seq<Action>, t: State)
    requires c.Valid() && Inv(c, st) && IsRun(c, st, run, t)
    ensures Inv(c, t)
    decreases |run|
  {
    hide Inv, Enabled, Next;
    if run != [] {
      StepKeepsInv(c, st, run[0]);
      RunKeepsInv(c, Next(c, st, run[0]), run[1..], t);
    }
  }

  lemma FewBuffersOf(c: Config, u: Upload)
    requires c.Valid() && UploadOk(c, u)
    ensures Buffers(u) <= if u.Working? then 1 + 2 * c.partConcurrency else 0
    ensures u.Working? && u.s.main.Finished? ==> Buffers(u) == 0
  {
    if u.Working? {
      UploadResults.Parts(u.p, u.s);
      hide U.Inv, U.Held, U.Shape, U.Staffed;
      UploadResults.FewBuffers(u.p, u.s);
      if u.s.main.Finished? {
        UploadResults.NothingLeftOut(u.p, u.s);
      }
    }
  }

  lemma FewBuffers(c: Config, u: Upload)
    requires c.Valid() && UploadOk(c, u)
    ensures Buffers(u) <= (1 + 2 * c.partConcurrency) * Slot(u)
    ensures u.Working? && u.s.main.Finished? ==> Buffers(u) == 0
  {
    hide UploadOk, Buffers;
    FewBuffersOf(c, u);
    Times(1 + 2 * c.partConcurrency);
  }

  lemma Times(x: int)
    ensures x * 0 == 0 && x * 1 == x
  {
  }

  lemma FewBuffersInAll(c: Config, us: seq<Upload>)
    requires c.Valid() && forall i :: 0 <= i < |us| ==> UploadOk(c, us[i])
    ensures AllBuffers(us) <= (1 + 2 * c.partConcurrency) * Workings(us)
  {
    hide UploadOk, Buffers, Slot, Total;
    forall i | 0 <= i < |us| ensures Buffers(us[i]) <= (1 + 2 * c.partConcurrency) * Slot(us[i]) {
      FewBuffers(c, us[i]);
    }
    TotalScales(us, Buffers, Slot, 1 + 2 * c.partConcurrency);
  }

  lemma Monotone(x: int, y: int, k: int)
    requires x <= y && 0 <= k
    ensures k * x <= k * y
  {
  }

  /** Whatever requests come and go, the part buffers of all uploads together never
      exceed the worst case, and a request that gives its slot back has none. */
  lemma UploadsFitInThePeak(c: Config, run: seq<Action>, t: State)
    requires c.Valid() && IsRun(c, State([], 0), run, t)
    ensures c.partSize * AllBuffers(t.uploads) <= c.partSize * (1 + 2 * c.partConcurrency) * c.maxUploads
    ensures forall i :: 0 <= i < |t.uploads| && Enabled(c, t, Release(i)) ==> Buffers(t.uploads[i]) == 0
  {
    PeakIs(c);
    hide *;
    StartInv(c);
    RunKeepsInv(c, State([], 0), run, t);
    InvFits(c, t);
  }

  lemma PeakIs(c: Config)
    requires c.Valid()
    ensures c.Peak() == c.partSize * (1 + 2 * c.partConcurrency) * c.maxUploads > 0
    ensures IsInt64(c.Peak()) <==> c.Peak() <= 0x7FFF_FFFF_FFFF_FFFF
  {
    assert c.partSize * (1 + 2 * c.partConcurrency) > 0;
  }

  lemma StartInv(c: Config)
    ensures Inv(c, State([], 0))
  {
  }

  lemma InvFits(c: Config, t: State)
    requires c.Valid() && Inv(c, t)
    ensures c.partSize * AllBuffers(t.uploads) <= c.Peak()
    ensures forall i :: 0 <= i < |t.uploads| && Enabled(c, t, Release(i)) ==> Buffers(t.uploads[i]) == 0
  {
    hide AllBuffers, Workings, Buffers, UploadOk, U.Enabled;
    FewBuffersInAll(c, t.uploads);
    PeakCovers(c, t.used, AllBuffers(t.uploads));
    forall i | 0 <= i < |t.uploads| && Enabled(c, t, Release(i)) ensures Buffers(t.uploads[i]) == 0 {
      FewBuffers(c, t.uploads[i]);
    }
  }

  lemma PeakCovers(c: Config, used: nat, buffers: nat)
    requires c.Valid() && used <= c.Slots() && buffers <= (1 + 2 * c.partConcurrency) * used
    ensures c.partSize * buffers <= c.Peak()
  {
    var each, slots := 1 + 2 * c.partConcurrency, c.Slots();
    Monotone(used, slots, each);
    Monotone(buffers, each * slots, c.partSize);
    Associates(c.partSize, each, slots);
  }

  lemma Associates(x: int, y: int, z: int)
    ensures x * (y * z) == x * y * z
  {
  }

  // ---- the figure reported at startup ------------------------------------

  /** The reported figure is the real worst case exactly when that fits in an
      int64; Validate sets no upper bound. */
  lemma PeakIsReported(c: Config)
    requires c.Valid()
    ensures PeakUploadBytes(c) == c.partSize * (1 + 2 * c.partConcurrency) * c.maxUploads <==>
      c.partSize * (1 + 2 * c.partConcurrency) * c.maxUploads <= 0x7FFF_FFFF_FFFF_FFFF
  {
    PeakIs(c);
    hide *;
    PeakWraps(c);
    WrapFits(c.Peak());
  }

  lemma PeakWraps(c: Config)
    requires c.Valid()
    ensures PeakUploadBytes(c) == Wrap64(c.Peak())
  {
    hide Wrap64;
    var per := 1 + 2 * c.partConcurrency;
    WrapSum(1, 2 * c.partConcurrency);
    WrapProduct(per, c.partSize);
    WrapProduct(c.partSize * per, c.maxUploads);
  }
}
