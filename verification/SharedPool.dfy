/** Any number of uploads on one buffer pool: each of them makes a run of its own,
    so everything proved of a single upload holds of all of them together. */
module SharedPool {
  import opened Chunking
  import opened Prelude
  import opened UploadProtocol
  import opened UploadResults

  datatype One = One(p: Params, s: State)

  function HeldSet(s: State): set<BufId> {
    set b | b in Held(s)
  }

  /** The memory as upload `s` sees it: what is neither free nor its own is
      foreign. */
  function View(s: State, bytes: map<BufId, seq<byte>>, free: set<BufId>): Memory {
    Memory(bytes, free, bytes.Keys - free - HeldSet(s))
  }

  /** All uploads see the same memory, and no two hold the same buffer. */
  ghost predicate Coherent(us: seq<One>) {
    && (forall i :: 0 <= i < |us| ==> Inv(us[i].p, us[i].s))
    && (forall i, j :: 0 <= i < |us| && 0 <= j < |us| ==> SameMemory(us[i], us[j]))
    && (forall i, j :: 0 <= i < |us| && 0 <= j < |us| && i != j ==> Apart(us[i], us[j]))
  }

  ghost predicate SameMemory(x: One, y: One) {
    x.s.mem.bytes == y.s.mem.bytes && x.s.mem.free == y.s.mem.free && x.p.partSize == y.p.partSize
  }

  ghost predicate Apart(x: One, y: One) {
    HeldSet(y.s) <= x.s.mem.foreign
  }

  /** Upload `i` makes step `a`; the others see the memory change. */
  ghost predicate Enabled(us: seq<One>, i: nat, a: Action) {
    i < |us| && !a.Others? && UploadProtocol.Enabled(us[i].p, us[i].s, a)
  }

  function Moved(us: seq<One>, i: nat, a: Action): State
    requires Enabled(us, i, a)
  {
    UploadProtocol.Next(us[i].p, us[i].s, a)
  }

  function Watches(u: One, t: State): One {
    u.(s := u.s.(mem := View(u.s, t.mem.bytes, t.mem.free)))
  }

  /** Upload `j` once upload `i` is in state `t`. */
  function After(us: seq<One>, i: nat, t: State, j: nat): One
    requires i < |us| && j < |us|
  {
    if j == i then One(us[i].p, t) else Watches(us[j], t)
  }

  function Next(us: seq<One>, i: nat, a: Action): (us': seq<One>)
    requires Enabled(us, i, a)
    ensures |us'| == |us|
  {
    var t := Moved(us, i, a);
    seq(|us|, j requires 0 <= j < |us| => After(us, i, t, j))
  }

  lemma OwnedView(c: Params, s: State)
    requires Owned(c, s)
    ensures s.mem == View(s, s.mem.bytes, s.mem.free)
    ensures HeldSet(s) <= s.mem.bytes.Keys && HeldSet(s) !! s.mem.free && HeldSet(s) !! s.mem.foreign
    ensures s.mem.foreign <= s.mem.bytes.Keys && s.mem.free <= s.mem.bytes.Keys && s.mem.foreign !! s.mem.free
    ensures multiset(HeldSet(s)) == Held(s)
  {
    hide Held;
    forall b ensures multiset(s.mem.free)[b] + multiset(s.mem.foreign)[b] + Held(s)[b] == multiset(s.mem.bytes.Keys)[b] {
      assert (multiset(s.mem.free) + multiset(s.mem.foreign) + Held(s))[b] == multiset(s.mem.bytes.Keys)[b];
    }
    forall b ensures b in s.mem.foreign <==> b in s.mem.bytes.Keys - s.mem.free - HeldSet(s) {
      assert multiset(s.mem.free)[b] + multiset(s.mem.foreign)[b] + Held(s)[b] == multiset(s.mem.bytes.Keys)[b];
    }
  }

  /** Upload `x` steps to state `t`. */
  ghost predicate Steps(x: One, a: Action, t: State) {
    UploadProtocol.Enabled(x.p, x.s, a) && !a.Others? && t == UploadProtocol.Next(x.p, x.s, a)
  }

  ghost predicate MaySee(y: One, t: State) {
    Tolerates(y.p, Held(y.s), y.s.mem, View(y.s, t.mem.bytes, t.mem.free))
  }

  /** What upload `x` does is, for upload `y`, something others may do. */
  lemma StepSeenByOther(x: One, y: One, a: Action, t: State)
    requires Inv(x.p, x.s) && Inv(y.p, y.s) && SameMemory(x, y) && Apart(x, y) && Steps(x, a, t)
    ensures MaySee(y, t) && Apart(One(x.p, t), y)
  {
    hide *;
    Parts(x.p, x.s);
    Parts(y.p, y.s);
    EarlyHasNoWorkers(x.p, x.s);
    if a == Cancel {
      CancelSeen(x, y, t);
    } else {
      OwnStepSeen(x, y, a, t);
    }
  }

  lemma CancelSeen(x: One, y: One, t: State)
    requires Owned(y.p, y.s) && SameMemory(x, y) && Apart(x, y) && Steps(x, Cancel, t)
    ensures MaySee(y, t) && Apart(One(x.p, t), y)
  {
    hide Owned, Tolerates, Held, HeldSet;
    OwnedView(y.p, y.s);
    SameMemoryTolerated(y.p, y.s);
  }

  lemma OwnStepSeen(x: One, y: One, a: Action, t: State)
    requires Owned(x.p, x.s) && Owned(y.p, y.s) && (x.s.main.Early() ==> x.s.workers == [])
    requires SameMemory(x, y) && Apart(x, y) && Steps(x, a, t) && a != Cancel
    ensures MaySee(y, t) && Apart(One(x.p, t), y)
  {
    hide Owned, UploadProtocol.Enabled, UploadProtocol.Next, HeldSet, Held, Tolerates;
    OwnedView(y.p, y.s);
    ForeignBuffersUntouched(x.p, x.s, a);
    UploadsTolerateEachOther(x.p, x.s, a, HeldSet(y.s));
    OnlyTheSizeMatters(x.p, y.p, Held(y.s), y.s.mem, View(y.s, t.mem.bytes, t.mem.free));
  }

  lemma OnlyTheSizeMatters(c: Params, d: Params, held: multiset<BufId>, m: Memory, m': Memory)
    requires c.partSize == d.partSize
    ensures Tolerates(c, held, m, m') <==> Tolerates(d, held, m, m')
  {
  }

  lemma SameMemoryTolerated(c: Params, s: State)
    requires Owned(c, s)
    ensures Tolerates(c, Held(s), s.mem, s.mem)
  {
    hide Held;
  }

  lemma MoverKeepsInv(x: One, a: Action, t: State)
    requires Inv(x.p, x.s) && Steps(x, a, t)
    ensures Inv(x.p, t)
  {
    hide Inv, UploadProtocol.Enabled, UploadProtocol.Next;
    StepKeepsInv(x.p, x.s, a);
  }

  lemma WatcherKeepsInv(y: One, t: State)
    requires Inv(y.p, y.s) && MaySee(y, t)
    ensures Inv(y.p, Watches(y, t).s)
  {
    hide Inv, Held, HeldSet, Tolerates;
    StepKeepsInv(y.p, y.s, Others(View(y.s, t.mem.bytes, t.mem.free)));
  }

  lemma SameHolders(y: One, t: State)
    ensures HeldSet(Watches(y, t).s) == HeldSet(y.s)
  {
  }

  lemma MoverAndWatcherApart(p: Params, y: One, t: State)
    requires Owned(p, t) && Apart(One(p, t), y)
    ensures Apart(One(p, t), Watches(y, t)) && Apart(Watches(y, t), One(p, t))
  {
    SameHolders(y, t);
    OwnedView(p, t);
    hide Owned, HeldSet;
  }

  /** Two watchers still hold different buffers. */
  lemma WatchersStayApart(p: Params, y: One, z: One, t: State)
    requires Owned(p, t) && Owned(y.p, y.s) && Apart(One(p, t), z) && Apart(y, z)
    ensures Apart(Watches(y, t), Watches(z, t))
  {
    SameHolders(z, t);
    OwnedView(p, t);
    OwnedView(y.p, y.s);
    hide Owned, HeldSet;
  }

  /** All that happens to a watcher. */
  lemma WatcherKeeps(x: One, y: One, a: Action, t: State)
    requires Inv(x.p, x.s) && Inv(y.p, y.s) && SameMemory(x, y) && Apart(x, y) && Steps(x, a, t)
    ensures Inv(y.p, Watches(y, t).s) && MaySee(y, t) && Apart(One(x.p, t), y)
    ensures Apart(One(x.p, t), Watches(y, t)) && Apart(Watches(y, t), One(x.p, t))
  {
    hide *;
    MoverKeepsInv(x, a, t);
    InvOwned(x.p, t);
    StepSeenByOther(x, y, a, t);
    WatcherKeepsInv(y, t);
    MoverAndWatcherApart(x.p, y, t);
  }

  lemma InvOwned(c: Params, s: State)
    requires Inv(c, s)
    ensures Owned(c, s)
  {
  }

  lemma StillInv(us: seq<One>, i: nat, a: Action, t: State, j: nat)
    requires Coherent(us) && i < |us| && j < |us| && Steps(us[i], a, t)
    ensures var u := After(us, i, t, j); Inv(u.p, u.s)
  {
    hide Inv, Steps, Apart, MaySee, Watches;
    if j == i {
      MoverKeepsInv(us[i], a, t);
    } else {
      WatcherKeeps(us[i], us[j], a, t);
      WatchesKeepParams(us[j], t);
    }
  }

  lemma WatchesKeepParams(y: One, t: State)
    ensures Watches(y, t).p == y.p
  {
  }

  lemma StillSame(us: seq<One>, i: nat, t: State, j: nat, k: nat)
    requires Coherent(us) && i < |us| && j < |us| && k < |us|
    ensures SameMemory(After(us, i, t, j), After(us, i, t, k))
  {
    hide Inv, Apart, HeldSet;
    assert SameMemory(us[j], us[k]);
  }

  lemma StillApart(us: seq<One>, i: nat, a: Action, t: State, j: nat, k: nat)
    requires Coherent(us) && i < |us| && j < |us| && k < |us| && j != k && Steps(us[i], a, t)
    ensures Apart(After(us, i, t, j), After(us, i, t, k))
  {
    hide Inv, Steps, Apart, MaySee, Watches, SameMemory;
    if j == i {
      WatcherKeeps(us[i], us[k], a, t);
    } else if k == i {
      WatcherKeeps(us[i], us[j], a, t);
    } else {
      MoverKeepsInv(us[i], a, t);
      InvOwned(us[i].p, t);
      InvOwned(us[j].p, us[j].s);
      WatcherKeeps(us[i], us[k], a, t);
      WatchersStayApart(us[i].p, us[j], us[k], t);
    }
  }

  lemma NextIsAfter(us: seq<One>, i: nat, a: Action)
    requires Enabled(us, i, a)
    ensures Steps(us[i], a, Moved(us, i, a))
    ensures forall j :: 0 <= j < |us| ==> Next(us, i, a)[j] == After(us, i, Moved(us, i, a), j)
  {
    hide UploadProtocol.Enabled, UploadProtocol.Next, After;
  }

  lemma StepKeepsCoherent(us: seq<One>, i: nat, a: Action)
    requires Coherent(us) && Enabled(us, i, a)
    ensures Coherent(Next(us, i, a))
  {
    hide *;
    NextIsAfter(us, i, a);
    var t, us' := Moved(us, i, a), Next(us, i, a);
    forall j, k | 0 <= j < |us| && 0 <= k < |us|
      ensures Inv(us'[j].p, us'[j].s) && SameMemory(us'[j], us'[k]) && (j != k ==> Apart(us'[j], us'[k]))
    {
      IndexOf(us, i, a);
      StillInv(us, i, a, t, j);
      StillSame(us, i, t, j, k);
      if j != k {
        StillApart(us, i, a, t, j, k);
      }
    }
    Assemble(us');
  }

  lemma IndexOf(us: seq<One>, i: nat, a: Action)
    requires Enabled(us, i, a)
    ensures i < |us|
  {
  }

  lemma Assemble(us: seq<One>)
    requires forall j, k :: 0 <= j < |us| && 0 <= k < |us| ==>
      Inv(us[j].p, us[j].s) && SameMemory(us[j], us[k]) && (j != k ==> Apart(us[j], us[k]))
    ensures Coherent(us)
  {
    hide Inv, SameMemory, Apart;
  }

  // ---- the pool forgets a free buffer ------------------------------------

  /** The memory after sync.Pool dropped the free buffer `b`. */
  function Evicted(s: State, b: BufId): State {
    s.(mem := s.mem.(bytes := s.mem.bytes - {b}, free := s.mem.free - {b}))
  }

  function Drop(us: seq<One>, b: BufId): (us': seq<One>)
    requires us != []
    ensures |us'| == |us|
  {
    seq(|us|, j requires 0 <= j < |us| => Watches(us[j], Evicted(us[0].s, b)))
  }

  lemma ViewAddsUp(free: set<BufId>, held: set<BufId>, all: set<BufId>)
    requires free <= all && held <= all && free !! held
    ensures multiset(free) + multiset(all - free - held) + multiset(held) == multiset(all)
  {
    forall b ensures (multiset(free) + multiset(all - free - held) + multiset(held))[b] == multiset(all)[b] {
    }
  }

  lemma EvictionIsSeen(x: One, y: One, b: BufId)
    requires Owned(y.p, y.s) && SameMemory(x, y) && b in x.s.mem.free
    ensures MaySee(y, Evicted(x.s, b))
  {
    OwnedView(y.p, y.s);
    hide Held, HeldSet;
    var bytes, free := x.s.mem.bytes - {b}, x.s.mem.free - {b};
    ViewAddsUp(free, HeldSet(y.s), bytes.Keys);
  }

  lemma EvictionKeepsApart(x: One, y: One, z: One, b: BufId)
    requires Owned(y.p, y.s) && Owned(z.p, z.s) && SameMemory(x, y) && SameMemory(x, z) && Apart(y, z)
    requires b in x.s.mem.free
    ensures Apart(Watches(y, Evicted(x.s, b)), Watches(z, Evicted(x.s, b)))
  {
    OwnedView(y.p, y.s);
    OwnedView(z.p, z.s);
    SameHolders(z, Evicted(x.s, b));
    hide Owned, Held, HeldSet;
  }

  lemma DropKeepsCoherent(us: seq<One>, b: BufId)
    requires Coherent(us) && us != [] && b in us[0].s.mem.free
    ensures Coherent(Drop(us, b))
  {
    var us' := Drop(us, b);
    hide Inv, Apart, View, MaySee, HeldSet, Held;
    forall j, k | 0 <= j < |us| && 0 <= k < |us|
      ensures Inv(us'[j].p, us'[j].s) && SameMemory(us'[j], us'[k]) && (j != k ==> Apart(us'[j], us'[k]))
    {
      DropKeepsPair(us, b, j, k);
    }
    Assemble(us');
  }

  lemma DropKeepsPair(us: seq<One>, b: BufId, j: nat, k: nat)
    requires Coherent(us) && us != [] && b in us[0].s.mem.free && j < |us| && k < |us|
    ensures var y, z := Watches(us[j], Evicted(us[0].s, b)), Watches(us[k], Evicted(us[0].s, b));
      Inv(y.p, y.s) && SameMemory(y, z) && (j != k ==> Apart(y, z))
  {
    assert SameMemory(us[0], us[j]) && SameMemory(us[0], us[k]) && SameMemory(us[j], us[k]);
    hide Inv, Apart, MaySee, HeldSet, Held;
    InvOwned(us[j].p, us[j].s);
    InvOwned(us[k].p, us[k].s);
    EvictionIsSeen(us[0], us[j], b);
    WatcherKeepsInv(us[j], Evicted(us[0].s, b));
    if j != k {
      EvictionKeepsApart(us[0], us[j], us[k], b);
    }
  }

  // ---- whole runs --------------------------------------------------------

  datatype Move = Step(i: nat, a: Action) | Evict(b: BufId)

  ghost predicate CanMove(us: seq<One>, m: Move) {
    match m
    case Step(i, a) => Enabled(us, i, a)
    case Evict(b) => us != [] && b in us[0].s.mem.free
  }

  function AfterMove(us: seq<One>, m: Move): seq<One>
    requires CanMove(us, m)
  {
    match m
    case Step(i, a) => Next(us, i, a)
    case Evict(b) => Drop(us, b)
  }

  ghost predicate IsSharedRun(us: seq<One>, run: seq<Move>, vs: seq<One>)
    decreases |run|
  {
    if run == [] then us == vs
    else CanMove(us, run[0]) && IsSharedRun(AfterMove(us, run[0]), run[1..], vs)
  }

  ghost predicate Runs(x: One, y: One) {
    y.p == x.p && exists run :: IsRun(x.p, x.s, run, y.s)
  }

  lemma RunCons(c: Params, s: State, b: Action, run: seq<Action>, t: State)
    requires UploadProtocol.Enabled(c, s, b) && IsRun(c, UploadProtocol.Next(c, s, b), run, t)
    ensures IsRun(c, s, [b] + run, t)
  {
    hide UploadProtocol.Enabled, UploadProtocol.Next;
    assert ([b] + run)[1..] == run;
  }

  lemma RunsCons(x: One, b: Action, m: State, y: One)
    requires UploadProtocol.Enabled(x.p, x.s, b) && m == UploadProtocol.Next(x.p, x.s, b) && Runs(One(x.p, m), y)
    ensures Runs(x, y)
  {
    hide UploadProtocol.Enabled, UploadProtocol.Next, IsRun;
    var run :| IsRun(x.p, m, run, y.s);
    RunCons(x.p, x.s, b, run, y.s);
  }

  /** One shared step is one step of every upload: its own, or the others'. */
  lemma SharedStepIsAStep(us: seq<One>, i: nat, a: Action, k: nat) returns (b: Action)
    requires Coherent(us) && Enabled(us, i, a) && k < |us|
    ensures UploadProtocol.Enabled(us[k].p, us[k].s, b)
    ensures Next(us, i, a)[k] == One(us[k].p, UploadProtocol.Next(us[k].p, us[k].s, b))
  {
    hide Inv, SameMemory, Apart, Held, HeldSet, Tolerates;
    var t := Moved(us, i, a);
    if k == i {
      b := a;
    } else {
      StepSeenByOther(us[i], us[k], a, t);
      b := Others(View(us[k].s, t.mem.bytes, t.mem.free));
    }
  }

  lemma DropIsAStep(us: seq<One>, b: BufId, k: nat) returns (other: Action)
    requires Coherent(us) && us != [] && b in us[0].s.mem.free && k < |us|
    ensures UploadProtocol.Enabled(us[k].p, us[k].s, other)
    ensures Drop(us, b)[k] == One(us[k].p, UploadProtocol.Next(us[k].p, us[k].s, other))
  {
    assert SameMemory(us[0], us[k]);
    hide Inv, SameMemory, Apart, Held, HeldSet, Tolerates;
    InvOwned(us[k].p, us[k].s);
    EvictionIsSeen(us[0], us[k], b);
    var t := Evicted(us[0].s, b);
    other := Others(View(us[k].s, t.mem.bytes, t.mem.free));
  }

  lemma {:induction false} EachUploadRuns(us: seq<One>, run: seq<Move>, vs: seq<One>, k: nat)
    requires Coherent(us) && IsSharedRun(us, run, vs) && k < |us|
    ensures Coherent(vs) && |vs| == |us| && Runs(us[k], vs[k])
    decreases |run|
  {
    if run == [] {
      assert IsRun(us[k].p, us[k].s, [], us[k].s);
    } else {
      var ws := AfterMove(us, run[0]);
      hide Coherent, Enabled, Next, Drop, Runs, UploadProtocol.Enabled, UploadProtocol.Next;
      var b;
      match run[0] {
        case Step(i, a) =>
          StepKeepsCoherent(us, i, a);
          b := SharedStepIsAStep(us, i, a, k);
        case Evict(buf) =>
          DropKeepsCoherent(us, buf);
          b := DropIsAStep(us, buf, k);
      }
      EachUploadRuns(ws, run[1..], vs, k);
      RunsCons(us[k], b, ws[k].s, vs[k]);
    }
  }

  /** An upload before its first step, in a memory whose buffers are free or with
      others. */
  function StartOf(p: Params, bytes: map<BufId, seq<byte>>, free: set<BufId>, hiccups: nat): State {
    State(Memory(bytes, free, bytes.Keys - free), p.body, hiccups, FirstFetch, [], [], Flags(false, false, false),
          Ledger([], 0, [], multiset{}), Bucket(map[], None, false, false, false))
  }

  lemma StartOfStarts(p: Params, bytes: map<BufId, seq<byte>>, free: set<BufId>, hiccups: nat)
    requires p.Valid() && free <= bytes.Keys && forall b :: b in bytes ==> |bytes[b]| == p.partSize
    ensures var s := StartOf(p, bytes, free, hiccups); Start(p, s) && HeldSet(s) == {}
  {
    ViewAddsUp(free, {}, bytes.Keys);
    assert bytes.Keys - free - {} == bytes.Keys - free;
  }

  /** Any number of uploads of the same part size can start together, over any
      memory. */
  lemma StartsAreCoherent(us: seq<One>, bytes: map<BufId, seq<byte>>, free: set<BufId>, size: nat)
    requires free <= bytes.Keys && forall b :: b in bytes ==> |bytes[b]| == size
    requires forall i :: 0 <= i < |us| ==>
      us[i].p.Valid() && us[i].p.partSize == size && us[i].s == StartOf(us[i].p, bytes, free, us[i].s.hiccups)
    ensures Coherent(us) && forall i :: 0 <= i < |us| ==> Start(us[i].p, us[i].s)
  {
    hide Inv, Start, HeldSet;
    forall i | 0 <= i < |us| ensures Inv(us[i].p, us[i].s) && Start(us[i].p, us[i].s) && HeldSet(us[i].s) == {} {
      StartOfStarts(us[i].p, bytes, free, us[i].s.hiccups);
      StartHasInv(us[i].p, us[i].s);
    }
  }

  /** Uploads that share the pool, whatever the interleaving: each stores its own
      body or nothing, never more than its share of buffers is out, and no buffer
      is ever with two of them. */
  lemma SharedUploadsAreSound(us: seq<One>, run: seq<Move>, vs: seq<One>, k: nat)
    requires Coherent(us) && (forall j :: 0 <= j < |us| ==> Start(us[j].p, us[j].s))
    requires IsSharedRun(us, run, vs) && k < |us|
    ensures |vs| == |us| && vs[k].p == us[k].p
    ensures var c, t := us[k].p, vs[k].s;
      && (t.s3.visible.Some? ==> t.s3.visible.value == c.body && !c.doomed)
      && (t.main.Finished? && t.main.outcome.Success? ==> t.s3.visible == Some(c.body) && t.main.outcome.total == |c.body|)
      && |Held(t)| <= 1 + 2 * c.workers
    ensures forall j :: 0 <= j < |vs| && j != k ==> HeldSet(vs[j].s) !! HeldSet(vs[k].s)
  {
    EachUploadRuns(us, run, vs, k);
    assert Inv(us[k].p, us[k].s) && Inv(vs[k].p, vs[k].s);
    hide Inv, IsRun, Start, Held, HeldSet, IsSharedRun;
    Parts(us[k].p, us[k].s);
    Parts(vs[k].p, vs[k].s);
    var r :| IsRun(us[k].p, us[k].s, r, vs[k].s);
    UploadStoresTheBody(us[k].p, us[k].s, r, vs[k].s);
    BuffersAreBoundedAndReturned(us[k].p, us[k].s, r, vs[k].s);
    hide Numbered, Shape, Staffed, Accounted, Faithful, Truthful, Owned;
    OwnedView(vs[k].p, vs[k].s);
    forall j | 0 <= j < |vs| && j != k ensures HeldSet(vs[j].s) !! HeldSet(vs[k].s) {
      assert Apart(vs[k], vs[j]);
    }
  }
}
