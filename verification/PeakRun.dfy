/** The worst case that Capacity bounds is real: uploads that read faster than they
    send get there, every one of them and all slots at once. */
module PeakRun {
  import opened Bags
  import opened Chunking
  import opened Prelude
  import opened UploadProtocol
  import opened UploadSafety
  import opened UploadResults
  import UploadProgress
  import C = Capacity

  function Repeated(n: nat, size: nat): nat {
    if n == 0 then 0 else size + Repeated(n - 1, size)
  }

  lemma {:induction false} RepeatedIsProduct(n: nat, size: nat)
    ensures Repeated(n, size) == n * size
  {
    if n > 0 {
      RepeatedIsProduct(n - 1, size);
      assert n * size == (n - 1) * size + size;
    }
  }

  lemma {:induction false} RunSnoc(c: Params, s: State, run: seq<Action>, m: State, a: Action)
    requires IsRun(c, s, run, m) && Enabled(c, m, a)
    ensures IsRun(c, s, run + [a], Next(c, m, a))
    decreases |run|
  {
    hide Enabled, Next;
    if run == [] {
      assert [a][1..] == [];
      assert IsRun(c, Next(c, m, a), [], Next(c, m, a));
    } else {
      assert (run + [a])[1..] == run[1..] + [a];
      RunSnoc(c, Next(c, s, run[0]), run[1..], m, a);
    }
  }

  /** One more step at the end of a run. */
  lemma Extend(c: Params, s: State, run: seq<Action>, m: State, a: Action) returns (run': seq<Action>, t: State)
    requires Inv(c, m) && IsRun(c, s, run, m) && Enabled(c, m, a)
    ensures t == Next(c, m, a) && Inv(c, t) && IsRun(c, s, run', t)
  {
    hide *;
    StepKeepsInv(c, m, a);
    RunSnoc(c, s, run, m, a);
    run', t := run + [a], Next(c, m, a);
  }

  /** The caller has a full part in hand, `k` jobs are queued, the first `busy` part
      workers upload and the others wait, and `rest` bytes are to come. */
  ghost predicate Loaded(c: Params, s: State, k: nat, busy: nat, rest: nat) {
    && s.main.Sending? && s.main.end.More? && Crew(c, s, k, busy) && |s.rest| == rest
  }

  ghost predicate Crew(c: Params, s: State, k: nat, busy: nat) {
    && |s.queue| == k && |s.workers| == c.workers
    && forall i :: 0 <= i < |s.workers| ==> if i < busy then s.workers[i].Uploading? else s.workers[i].Idle?
  }

  lemma GetsBuffer(c: Params, s: State) returns (a: Action)
    requires s.main.FirstFetch? || s.main.Fetch?
    ensures Enabled(c, s, a)
    ensures var t := Next(c, s, a);
      && t.main.Filling? && t.main.n == 0 && (t.main.first <==> s.main.FirstFetch?)
      && t.queue == s.queue && t.workers == s.workers && t.rest == s.rest
  {
    hide Acceptable, Sort, Tolerates, Held;
    var b := UploadProgress.Outsider(s.mem.bytes.Keys);
    a := GetBuf(b);
  }

  /** One read can fill a whole buffer. */
  lemma FillsBuffer(c: Params, s: State) returns (a: Action)
    requires c.Valid() && Owned(c, s) && s.main.Filling? && s.main.n == 0 && |s.rest| >= c.partSize
    ensures Enabled(c, s, a)
    ensures var t := Next(c, s, a);
      && (if s.main.first then t.main.Creating? else t.main.Sending? && t.main.end.More?)
      && t.queue == s.queue && t.workers == s.workers && |t.rest| == |s.rest| - c.partSize
  {
    hide Bag, Tolerates, Acceptable, Sort;
    assert s.main.buf in Held(s);
    HeldOnce(c, s, s.main.buf);
    hide Owned, Held;
    var data := s.rest[..c.partSize];
    a := Read(data, [], More, s.hiccups);
  }

  lemma CreatesUpload(c: Params, s: State)
    requires s.main.Creating? && s.queue == []
    ensures Enabled(c, s, CreateDone(true, true))
    ensures Loaded(c, Next(c, s, CreateDone(true, true)), 0, 0, |s.rest|)
  {
    hide Acceptable, Sort, Tolerates, Held;
  }

  lemma SendsJob(c: Params, s: State, k: nat, busy: nat, rest: nat)
    requires Owned(c, s) && Accounted(c, s) && Loaded(c, s, k, busy, rest) && k < c.workers
    ensures Enabled(c, s, Send)
    ensures var t := Next(c, s, Send); t.main.Fetch? && Crew(c, t, k + 1, busy) && |t.rest| == rest
  {
    hide Bag, Tolerates, Acceptable, Sort, Concat, WellCut;
    assert s.main.buf in Held(s);
    HeldOnce(c, s, s.main.buf);
  }

  lemma TakesJob(c: Params, s: State, busy: nat)
    requires s.main.Fetch? && Crew(c, s, 1, busy) && busy < c.workers
    ensures Enabled(c, s, Take(busy))
    ensures var t := Next(c, s, Take(busy)); t.main.Fetch? && Crew(c, t, 0, busy + 1) && t.rest == s.rest
  {
    hide Acceptable, Sort, Tolerates, Held;
  }

  /** From the channel's side of a part to the next full part in hand. */
  lemma Refill(c: Params, s: State, run: seq<Action>, m: State, k: nat, busy: nat) returns (run': seq<Action>, t: State)
    requires Inv(c, m) && IsRun(c, s, run, m) && m.main.Fetch? && Crew(c, m, k, busy) && |m.rest| >= c.partSize
    ensures Inv(c, t) && IsRun(c, s, run', t) && Loaded(c, t, k, busy, |m.rest| - c.partSize)
  {
    hide Inv, IsRun, Enabled, Next, Owned;
    var a := GetsBuffer(c, m);
    run', t := Extend(c, s, run, m, a);
    Parts(c, t);
    a := FillsBuffer(c, t);
    run', t := Extend(c, s, run', t, a);
  }

  /** A part goes out, to an idle part worker or to wait in the channel, and the
      next one is read. */
  lemma OneMore(c: Params, s: State, run: seq<Action>, m: State, k: nat, busy: nat) returns (run': seq<Action>, t: State)
    requires Inv(c, m) && IsRun(c, s, run, m) && Loaded(c, m, k, busy, |m.rest|) && |m.rest| >= c.partSize
    requires if busy < c.workers then k == 0 else busy == c.workers && k < c.workers
    ensures Inv(c, t) && IsRun(c, s, run', t)
    ensures Loaded(c, t, if busy < c.workers then 0 else k + 1, if busy < c.workers then busy + 1 else busy, |m.rest| - c.partSize)
  {
    hide Inv, IsRun, Enabled, Next, Owned, Accounted, Crew;
    Parts(c, m);
    SendsJob(c, m, k, busy, |m.rest|);
    run', t := Extend(c, s, run, m, Send);
    if busy < c.workers {
      TakesJob(c, t, busy);
      run', t := Extend(c, s, run', t, Take(busy));
      run', t := Refill(c, s, run', t, 0, busy + 1);
    } else {
      run', t := Refill(c, s, run', t, k + 1, busy);
    }
  }

  lemma {:induction false} LoadUp(c: Params, s: State, run: seq<Action>, m: State, k: nat, busy: nat)
    returns (run': seq<Action>, t: State)
    requires Inv(c, m) && IsRun(c, s, run, m) && Loaded(c, m, k, busy, |m.rest|) && k <= c.workers && busy <= c.workers
    requires busy < c.workers ==> k == 0
    requires |m.rest| >= Repeated(2 * c.workers - k - busy, c.partSize)
    ensures Inv(c, t) && IsRun(c, s, run', t) && Loaded(c, t, c.workers, c.workers, |t.rest|)
    decreases 2 * c.workers - k - busy
  {
    hide Inv, IsRun, Crew;
    if k == c.workers && busy == c.workers {
      run', t := run, m;
    } else {
      run', t := OneMore(c, s, run, m, k, busy);
      run', t := LoadUp(c, s, run', t, if busy < c.workers then 0 else k + 1, if busy < c.workers then busy + 1 else busy);
    }
  }

  lemma {:induction false} BagOfOnes<T, U>(s: seq<T>, f: T -> multiset<U>)
    requires forall i :: 0 <= i < |s| ==> |f(s[i])| == 1
    ensures |Bag(s, f)| == |s|
  {
    if s != [] {
      assert forall i :: 0 <= i < |s[1..]| ==> s[1..][i] == s[i + 1];
      BagOfOnes(s[1..], f);
    }
  }

  lemma FullyLoaded(c: Params, s: State)
    requires Loaded(c, s, c.workers, c.workers, |s.rest|)
    ensures |Held(s)| == 1 + 2 * c.workers
  {
    BagOfOnes(s.queue, JobBufs);
    BagOfOnes(s.workers, WorkerBufs);
  }

  /** An upload whose body has more than twice as many full parts as there are part
      workers can have 1 + 2 * workers buffers out. */
  lemma UploadReachesItsBound(c: Params, s: State) returns (run: seq<Action>, t: State)
    requires c.Valid() && Start(c, s) && |c.body| >= (1 + 2 * c.workers) * c.partSize
    ensures IsRun(c, s, run, t) && |Held(t)| == 1 + 2 * c.workers
  {
    RepeatedIsProduct(1 + 2 * c.workers, c.partSize);
    assert Repeated(1 + 2 * c.workers, c.partSize) == c.partSize + Repeated(2 * c.workers, c.partSize);
    StartHasInv(c, s);
    AtStart(c, s);
    hide *;
    var m;
    run, m := FirstPart(c, s);
    run, t := LoadUp(c, s, run, m, 0, 0);
    FullyLoaded(c, t);
  }

  lemma AtStart(c: Params, s: State)
    requires Start(c, s)
    ensures s.main.FirstFetch? && s.queue == [] && s.rest == c.body && IsRun(c, s, [], s)
  {
  }

  lemma FirstPart(c: Params, s: State) returns (run: seq<Action>, t: State)
    requires Inv(c, s) && s.main.FirstFetch? && s.queue == [] && |s.rest| >= c.partSize && IsRun(c, s, [], s)
    ensures Inv(c, t) && IsRun(c, s, run, t) && Loaded(c, t, 0, 0, |s.rest| - c.partSize)
  {
    hide Inv, IsRun, Enabled, Next, Owned, Loaded, Shape, Numbered, Staffed, Accounted, Faithful, Truthful;
    var a := GetsBuffer(c, s);
    run, t := Extend(c, s, [], s, a);
    Parts(c, t);
    a := FillsBuffer(c, t);
    run, t := Extend(c, s, run, t, a);
    CreatesUpload(c, t);
    run, t := Extend(c, s, run, t, CreateDone(true, true));
  }

  // ---- all slots at once -------------------------------------------------

  lemma {:induction false} CapacitySnoc(c: C.Config, st: C.State, run: seq<C.Action>, m: C.State, a: C.Action)
    requires C.IsRun(c, st, run, m) && C.Enabled(c, m, a)
    ensures C.IsRun(c, st, run + [a], C.Next(c, m, a))
    decreases |run|
  {
    hide C.Enabled, C.Next;
    if run == [] {
      assert [a][1..] == [];
      assert C.IsRun(c, C.Next(c, m, a), [], C.Next(c, m, a));
    } else {
      assert (run + [a])[1..] == run[1..] + [a];
      CapacitySnoc(c, C.Next(c, st, run[0]), run[1..], m, a);
    }
  }

  /** The uploads without the last one, and that one at work. */
  function WithLast(us: seq<C.Upload>, p: Params, s: State): seq<C.Upload> {
    us + [C.Working(p, s)]
  }

  lemma WorkStep(c: C.Config, us: seq<C.Upload>, used: nat, p: Params, s: State, a: Action)
    requires Enabled(p, s, a)
    ensures var st := C.State(WithLast(us, p, s), used);
      C.Enabled(c, st, C.Work(|us|, a)) && C.Next(c, st, C.Work(|us|, a)) == C.State(WithLast(us, p, Next(p, s, a)), used)
  {
    hide Enabled, Next;
  }

  /** The last upload's own run, as steps of the process. */
  lemma {:induction false} LastWorks(c: C.Config, st: C.State, run: seq<C.Action>, us: seq<C.Upload>, used: nat, p: Params,
                                     s: State, own: seq<Action>, t: State) returns (run': seq<C.Action>)
    requires C.IsRun(c, st, run, C.State(WithLast(us, p, s), used)) && IsRun(p, s, own, t)
    ensures C.IsRun(c, st, run', C.State(WithLast(us, p, t), used))
    decreases |own|
  {
    hide C.IsRun, C.Enabled, C.Next, Enabled, Next, WithLast;
    if own == [] {
      run' := run;
    } else {
      WorkStep(c, us, used, p, s, own[0]);
      CapacitySnoc(c, st, run, C.State(WithLast(us, p, s), used), C.Work(|us|, own[0]));
      run' := LastWorks(c, st, run + [C.Work(|us|, own[0])], us, used, p, Next(p, s, own[0]), own[1..], t);
    }
  }

  lemma Begins(c: C.Config, us: seq<C.Upload>, used: nat, p: Params, s: State)
    requires used < c.Slots() && p.partSize == c.partSize && p.workers == c.partConcurrency && Start(p, s)
    ensures var st, m := C.State(us, used), C.State(us + [C.Asking], used);
      && C.Enabled(c, st, C.Arrive) && C.Next(c, st, C.Arrive) == m
      && C.Enabled(c, m, C.Acquire(|us|, p, s))
      && C.Next(c, m, C.Acquire(|us|, p, s)) == C.State(WithLast(us, p, s), used + 1)
  {
    hide Start;
  }

  /** A large upload over a pool that is empty. */
  lemma LargeUpload(c: C.Config) returns (p: Params, s: State)
    requires c.Valid()
    ensures p.Valid() && p.partSize == c.partSize && p.workers == c.partConcurrency && Start(p, s)
    ensures |p.body| == (1 + 2 * p.workers) * p.partSize
  {
    p := Params(c.partSize, c.partConcurrency, Zeros((1 + 2 * c.partConcurrency) * c.partSize), false);
    s := State(Memory(map[], {}, {}), p.body, 0, FirstFetch, [], [], Flags(false, false, false),
               Ledger([], 0, [], multiset{}), Bucket(map[], None, false, false, false));
    assert Owned(p, s) by {
      assert Held(s) == multiset{};
    }
  }

  lemma LastBuffers(us: seq<C.Upload>, p: Params, s: State)
    ensures C.AllBuffers(WithLast(us, p, s)) == C.AllBuffers(us) + |Held(s)|
  {
    hide Held;
    TotalSnoc(us, C.Working(p, s), C.Buffers);
  }

  lemma StepTo(c: C.Config, st: C.State, run: seq<C.Action>, m: C.State, a: C.Action, t: C.State) returns (run': seq<C.Action>)
    requires C.IsRun(c, st, run, m) && C.Enabled(c, m, a) && C.Next(c, m, a) == t
    ensures C.IsRun(c, st, run', t)
  {
    hide *;
    CapacitySnoc(c, st, run, m, a);
    run' := run + [a];
  }

  /** A further request gets a slot and goes to its bound. */
  lemma OneSlotMore(c: C.Config, run: seq<C.Action>, us: seq<C.Upload>, n: nat) returns (run': seq<C.Action>, us': seq<C.Upload>)
    requires c.Valid() && n < c.Slots() && C.IsRun(c, C.State([], 0), run, C.State(us, n))
    ensures C.IsRun(c, C.State([], 0), run', C.State(us', n + 1))
    ensures C.AllBuffers(us') == C.AllBuffers(us) + 1 + 2 * c.partConcurrency
  {
    hide *;
    var p, s := LargeUpload(c);
    var own, t := UploadReachesItsBound(p, s);
    Begins(c, us, n, p, s);
    run' := StepTo(c, C.State([], 0), run, C.State(us, n), C.Arrive, C.State(us + [C.Asking], n));
    run' := StepTo(c, C.State([], 0), run', C.State(us + [C.Asking], n), C.Acquire(|us|, p, s), C.State(WithLast(us, p, s), n + 1));
    run' := LastWorks(c, C.State([], 0), run', us, n + 1, p, s, own, t);
    us' := WithLast(us, p, t);
    LastBuffers(us, p, t);
  }

  lemma {:induction false} SlotsFill(c: C.Config, n: nat) returns (run: seq<C.Action>, us: seq<C.Upload>)
    requires c.Valid() && n <= c.Slots()
    ensures C.IsRun(c, C.State([], 0), run, C.State(us, n))
    ensures C.AllBuffers(us) == Repeated(n, 1 + 2 * c.partConcurrency)
  {
    if n == 0 {
      run, us := [], [];
    } else {
      hide C.IsRun, C.AllBuffers;
      run, us := SlotsFill(c, n - 1);
      run, us := OneSlotMore(c, run, us, n - 1);
    }
  }

  /** There is a run in which the part buffers of all uploads together take exactly
      the worst case. */
  lemma ThePeakIsReached(c: C.Config) returns (run: seq<C.Action>, t: C.State)
    requires c.Valid()
    ensures C.IsRun(c, C.State([], 0), run, t)
    ensures c.partSize * C.AllBuffers(t.uploads) == c.partSize * (1 + 2 * c.partConcurrency) * c.maxUploads
  {
    hide C.IsRun, C.AllBuffers;
    var us;
    run, us := SlotsFill(c, c.maxUploads);
    t := C.State(us, c.maxUploads);
    RepeatedIsProduct(c.maxUploads, 1 + 2 * c.partConcurrency);
    Rearrange(c.partSize, 1 + 2 * c.partConcurrency, c.maxUploads);
  }

  lemma Rearrange(x: int, y: int, z: int)
    ensures x * (z * y) == x * y * z
  {
  }
}
