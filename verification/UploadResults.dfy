/** What an upload guarantees over every run. */
module UploadResults {
  import opened Chunking
  import opened Prelude
  import opened Bags
  import opened UploadProtocol
  import opened UploadSafety

  // ---- assembling the manifest -------------------------------------------

  function SizeAt(k: nat, sent: seq<seq<byte>>): nat {
    if 1 <= k <= |sent| then |sent[k - 1]| else 0
  }

  lemma SizeOfSnoc(nums: seq<nat>, k: nat, sent: seq<seq<byte>>)
    ensures SizeOf(nums + [k], sent) == SizeOf(nums, sent) + SizeAt(k, sent)
  {
    assert (nums + [k])[..|nums|] == nums;
  }

  lemma {:induction false} SizeOfConcat(a: seq<nat>, b: seq<nat>, sent: seq<seq<byte>>)
    ensures SizeOf(a + b, sent) == SizeOf(a, sent) + SizeOf(b, sent)
  {
    if b == [] {
      assert a + b == a;
    } else {
      var front, last := b[..|b| - 1], b[|b| - 1];
      SizeOfConcat(a, front, sent);
      SizeOfSnoc(a + front, last, sent);
      SizeOfSnoc(front, last, sent);
      assert b == front + [last] && a + b == (a + front) + [last];
    }
  }

  /** The total does not depend on the order in which parts were recorded. */
  lemma {:induction false} SizeOfAnyOrder(a: seq<nat>, b: seq<nat>, sent: seq<seq<byte>>)
    requires multiset(a) == multiset(b)
    ensures SizeOf(a, sent) == SizeOf(b, sent)
  {
    if a == [] {
      assert |multiset(b)| == 0;
    } else {
      var front, k := a[..|a| - 1], a[|a| - 1];
      assert a == front + [k];
      assert k in multiset(b);
      var i :| 0 <= i < |b| && b[i] == k;
      var left, right := b[..i], b[i + 1..];
      assert b == left + [k] + right;
      assert multiset(b) == multiset(left) + multiset{k} + multiset(right);
      SameCount(multiset(front), multiset(left + right), multiset{k});
      SizeOfAnyOrder(front, left + right, sent);
      SizeOfSnoc(front, k, sent);
      SizeOfSnoc(left, k, sent);
      SizeOfConcat(left + [k], right, sent);
      SizeOfConcat(left, right, sent);
    }
  }

  /** The manifest 1, 2, ... assembles the parts in the order they were cut. */
  lemma {:induction false} AssembledInOrder(manifest: seq<nat>, stored: map<nat, seq<byte>>, sent: seq<seq<byte>>)
    requires |manifest| == |sent| && forall i :: 0 <= i < |manifest| ==> manifest[i] == i + 1
    requires forall k :: 1 <= k <= |sent| ==> k in stored && stored[k] == sent[k - 1]
    ensures Assembled(manifest, stored) == Concat(sent)
    ensures SizeOf(manifest, sent) == |Concat(sent)|
  {
    if manifest != [] {
      var n := |manifest| - 1;
      AssembledInOrder(manifest[..n], stored, sent[..n]);
      assert sent == sent[..n] + [sent[n]];
      SizeOfExtends(manifest[..n], sent[..n], sent[n]);
    }
  }

  lemma AllInTheLog(c: Params, s: State)
    requires Numbered(s) && Shape(c, s) && Staffed(s) && s.main.Completing?
    ensures multiset(s.log.parts) == multiset(UpTo(|s.log.sent|))
  {
    hide UpTo;
    BagEmpty(s.workers, WorkerNums);
    assert Placed(s) == multiset(s.log.parts);
  }

  /** With every worker gone and no part lost, the sorted records are 1..k. */
  lemma EverythingRecorded(c: Params, s: State)
    requires Numbered(s) && Shape(c, s) && Staffed(s) && Faithful(s) && s.main.Completing?
    ensures
      var m := Sort(s.log.parts);
      && |m| == |s.log.sent| && (forall i :: 0 <= i < |m| ==> m[i] == i + 1)
      && multiset(m) == multiset(s.log.parts)
      && forall k :: 1 <= k <= |m| ==> HasPart(s, k)
  {
    AllInTheLog(c, s);
    hide Numbered, Shape, Staffed, Sort, SizeOf, Carries, WorkerRight, UpTo;
    SortGivesIota(s.log.parts, |s.log.sent|);
    SortSorts(s.log.parts);
    var m := Sort(s.log.parts);
    forall k | 1 <= k <= |m| ensures HasPart(s, k) {
      assert m[k - 1] in multiset(m);
      assert k in multiset(s.log.parts);
    }
  }

  lemma TotalIsSize(s: State)
    requires Faithful(s)
    ensures s.log.total == SizeOf(s.log.parts, s.log.sent)
  {
  }

  /** The manifest sent to the store is always one it accepts, and what it
      assembles is the body. */
  lemma CompletionIsRight(c: Params, s: State)
    requires Inv(c, s) && s.main.Completing?
    ensures Acceptable(Sort(s.log.parts), s.s3.stored)
    ensures Assembled(Sort(s.log.parts), s.s3.stored) == c.body && s.log.total == |c.body| && !c.doomed
  {
    hide Placed, Held, Bag, Sort, Assembled, SizeOf, Concat, WellCut, Owned, Faithful, Numbered, Staffed, Truthful;
    TotalIsSize(s);
    EverythingRecorded(c, s);
    var m := Sort(s.log.parts);
    forall k | 1 <= k <= |m| ensures k in s.s3.stored && s.s3.stored[k] == s.log.sent[k - 1] {
      assert HasPart(s, k);
    }
    AssembledInOrder(m, s.s3.stored, s.log.sent);
    SizeOfAnyOrder(s.log.parts, m, s.log.sent);
  }

  lemma SinglePutIsRight(c: Params, s: State)
    requires Inv(c, s) && s.main.SinglePut?
    ensures CanSinglePut(s) && s.mem.bytes[s.main.buf][..s.main.n] == c.body && s.main.n == |c.body| && !c.doomed
  {
    hide Bag;
    assert s.main.buf in Held(s);
    HeldOnce(c, s, s.main.buf);
    assert Concat([]) + InHand(s) + [] == InHand(s);
  }

  // ---- the invariant over every run --------------------------------------

  lemma StepKeepsTruthful(c: Params, s: State, a: Action)
    requires Inv(c, s) && Enabled(c, s, a)
    ensures Truthful(c, Next(c, s, a))
  {
    hide Owned, Numbered, Faithful, Accounted, Staffed, Inv, Bag, Held, Sort, Assembled, Acceptable, Tolerates, CanRead, Filled;
    Parts(c, s);
    match a
    case SinglePutDone(_, _) => SinglePutIsRight(c, s);
    case CompleteDone(_, _) => CompletionIsRight(c, s);
    case Read(_, _, _, _) => EarlyIsInvisible(c, s, a);
    case PutBack(i) => BusyIsInvisible(c, s, i);
    case _ =>
  }

  /** While a worker is at work there is no object. */
  lemma BusyIsInvisible(c: Params, s: State, i: nat)
    requires Shape(c, s) && Staffed(s) && Truthful(c, s) && IsWorker(s, i) && s.workers[i].Returning?
    ensures s.s3.visible == None
  {
    assert !s.workers[i].Gone();
  }

  lemma Parts(c: Params, s: State)
    requires Inv(c, s)
    ensures c.Valid() && Owned(c, s) && Numbered(s) && Shape(c, s) && Staffed(s) && Accounted(c, s) && Faithful(s) && Truthful(c, s)
  {
  }

  lemma EarlyIsInvisible(c: Params, s: State, a: Action)
    requires Shape(c, s) && Truthful(c, s) && Enabled(c, s, a) && a.Read?
    ensures Truthful(c, Next(c, s, a))
  {
  }

  /** One step of any party, in any state an upload can be in. */
  lemma StepKeepsInv(c: Params, s: State, a: Action)
    requires Inv(c, s) && Enabled(c, s, a)
    ensures Inv(c, Next(c, s, a))
  {
    hide Owned, Numbered, Shape, Staffed, Faithful, Accounted, Truthful, Enabled, Next;
    assert s.main.Early() ==> s.workers == [] by {
      EarlyHasNoWorkers(c, s);
    }
    StepKeepsOwned(c, s, a);
    StepKeepsNumbered(c, s, a);
    StepKeepsControl(c, s, a);
    StepKeepsAccounted(c, s, a);
    StepKeepsFaithful(c, s, a);
    StepKeepsTruthful(c, s, a);
  }

  lemma EarlyHasNoWorkers(c: Params, s: State)
    requires Shape(c, s)
    ensures s.main.Early() ==> s.workers == []
  {
  }

  lemma StartHasInv(c: Params, s: State)
    requires c.Valid() && Start(c, s)
    ensures Inv(c, s)
  {
    assert Placed(s) == multiset(UpTo(0));
    assert InHand(s) == [];
  }

  lemma {:induction false} RunKeepsInv(c: Params, s: State, run: seq<Action>, t: State)
    requires Inv(c, s) && IsRun(c, s, run, t)
    ensures Inv(c, t)
    decreases |run|
  {
    hide Inv, Enabled, Next;
    if run != [] {
      StepKeepsInv(c, s, run[0]);
      RunKeepsInv(c, Next(c, s, run[0]), run[1..], t);
    }
  }

  /** Whatever the interleaving, the chunking and the failures: an upload that
      reports success has stored exactly the body and reports its length; a
      reported read, part or cancellation failure means that completion was never
      even requested and the multipart upload, if there was one, was aborted; and
      no object other than the body is visible at any moment. */
  lemma UploadStoresTheBody(c: Params, s: State, run: seq<Action>, t: State)
    requires c.Valid() && Start(c, s) && IsRun(c, s, run, t)
    ensures t.s3.visible.Some? ==> t.s3.visible.value == c.body && !c.doomed
    ensures t.main.Finished? && t.main.outcome.Success? ==>
      t.s3.visible == Some(c.body) && t.main.outcome.total == |c.body| && !t.s3.aborted
    ensures t.flags.produceFailed || t.flags.partFailed ==> !t.s3.asked && t.s3.visible == None
    ensures t.main == Finished(Failure) && t.workers != [] ==> t.s3.aborted
  {
    StartHasInv(c, s);
    RunKeepsInv(c, s, run, t);
  }

  /** The manifest of a completed upload, over every run that reaches the call:
      the numbers 1..k once each, ascending, k being the number of blocks the
      body is cut into, and each holding its block. */
  lemma ManifestIsTheBlocks(c: Params, s: State, run: seq<Action>, t: State)
    requires c.Valid() && Start(c, s) && IsRun(c, s, run, t) && t.main.Completing?
    ensures
      var manifest, blocks := Sort(t.log.parts), Blocks(c.body, c.partSize);
      && |manifest| == |blocks|
      && forall i :: 0 <= i < |blocks| ==>
           manifest[i] == i + 1 && manifest[i] in t.s3.stored && t.s3.stored[manifest[i]] == blocks[i]
  {
    StartHasInv(c, s);
    RunKeepsInv(c, s, run, t);
    hide Inv, IsRun, Start, Sort, Blocks;
    Parts(c, t);
    CompletingManifest(c, t);
  }

  lemma CompletingManifest(c: Params, s: State)
    requires c.Valid() && Numbered(s) && Shape(c, s) && Staffed(s) && Accounted(c, s) && Faithful(s) && s.main.Completing?
    ensures
      var manifest, blocks := Sort(s.log.parts), Blocks(c.body, c.partSize);
      && |manifest| == |blocks|
      && forall i :: 0 <= i < |blocks| ==>
           manifest[i] == i + 1 && manifest[i] in s.s3.stored && s.s3.stored[manifest[i]] == blocks[i]
  {
    hide Sort, Blocks, Shape, Numbered, Staffed, Faithful, Accounted;
    CompletingHasBlocks(c, s);
    EverythingRecorded(c, s);
    var manifest := Sort(s.log.parts);
    forall i | 0 <= i < |manifest| ensures manifest[i] in s.s3.stored && s.s3.stored[manifest[i]] == s.log.sent[i] {
      assert HasPart(s, i + 1);
    }
  }

  lemma CompletingHasBlocks(c: Params, s: State)
    requires c.Valid() && Shape(c, s) && Accounted(c, s) && s.main.Completing?
    ensures s.log.sent == Blocks(c.body, c.partSize)
  {
    hide Concat, Blocks;
    CutIsUnique(s.log.sent, c.partSize);
  }

  // ---- what is left behind -----------------------------------------------

  ghost predicate PendingOk(s: State) {
    && (s.main.Early() ==> !s.s3.pending)
    && (!s.main.Early() && !s.main.Aborting? && !s.main.Finished? ==> s.s3.pending)
  }

  lemma StepKeepsPendingOk(c: Params, s: State, a: Action)
    requires PendingOk(s) && Enabled(c, s, a)
    ensures PendingOk(Next(c, s, a))
  {
    hide Sort, Assembled, Acceptable, Tolerates, Held;
  }

  /** The call's path only goes forward: creation, completion, abortion, each once. */
  lemma {:induction false} PastSteps(c: Params, s: State, run: seq<Action>, t: State)
    requires IsRun(c, s, run, t)
    ensures forall a :: a in run && a.CreateDone? ==> s.main.Early()
    ensures forall a :: a in run && a.CompleteDone? ==> !s.main.Aborting? && !s.main.Finished?
    ensures forall a :: a in run && a.AbortDone? ==> !s.main.Finished?
    decreases |run|
  {
    if run != [] {
      OneWay(c, s, run[0]);
      hide Enabled, Next;
      PastSteps(c, Next(c, s, run[0]), run[1..], t);
      assert forall a :: a in run ==> a == run[0] || a in run[1..];
    }
  }

  lemma OneWay(c: Params, s: State, a: Action)
    requires Enabled(c, s, a)
    ensures var t := Next(c, s, a);
      && (t.main.Early() ==> s.main.Early()) && (s.main.Finished? ==> t.main.Finished?)
      && (s.main.Aborting? ==> t.main.Aborting? || t.main.Finished?)
      && (a.CreateDone? ==> s.main.Early()) && (a.CompleteDone? ==> s.main.Completing?) && (a.AbortDone? ==> s.main.Aborting?)
  {
    hide Sort, Assembled, Acceptable, Tolerates, Held;
  }

  /** Does the rest of a run leave a multipart upload pending? */
  ghost predicate Leaves(s: State, run: seq<Action>) {
    if s.main.Finished? then s.s3.pending
    else
      || CreateDone(false, true) in run
      || (AbortDone(false) in run && CompleteDone(false, true) !in run && (s.main.Aborting? ==> s.s3.pending))
  }

  lemma LeavesLater(c: Params, s: State, a: Action, rest: seq<Action>, t: State)
    requires PendingOk(s) && Enabled(c, s, a) && IsRun(c, Next(c, s, a), rest, t) && t.main.Finished?
    requires rest == [] ==> Next(c, s, a).main.Finished?
    ensures Leaves(s, [a] + rest) <==> Leaves(Next(c, s, a), rest)
  {
    hide IsRun, Sort, Assembled, Acceptable, Tolerates, Held;
    PastSteps(c, Next(c, s, a), rest, t);
    OneWay(c, s, a);
    PendingAfter(c, s, a);
    hide Next, Enabled;
    assert forall b :: b in [a] + rest <==> b == a || b in rest;
  }

  lemma PendingAfter(c: Params, s: State, a: Action)
    requires Enabled(c, s, a)
    ensures var t := Next(c, s, a);
      && t.s3.pending == (if a.CreateDone? then a.ok || a.applied
                          else if a.CompleteDone? then s.s3.pending && !a.ok && !a.applied
                          else if a.AbortDone? then s.s3.pending && !a.applied
                          else s.s3.pending)
      && (a.CreateDone? ==> if a.ok then !t.main.Aborting? && !t.main.Finished? else t.main.Finished?)
      && (a.CompleteDone? ==> if a.ok then t.main.Finished? else t.main.Aborting?)
      && (a.AbortDone? ==> t.main.Finished?)
      && (t.main.Aborting? && !s.main.Aborting? && !a.CompleteDone? ==> s.main.Draining?)
  {
    hide Sort, Assembled, Acceptable, Tolerates, Held;
  }

  lemma {:induction false} RunLeaves(c: Params, s: State, run: seq<Action>, t: State)
    requires PendingOk(s) && IsRun(c, s, run, t) && t.main.Finished?
    ensures t.s3.pending <==> Leaves(s, run)
    decreases |run|
  {
    if run != [] {
      hide Enabled, Next, Leaves, PendingOk;
      StepKeepsPendingOk(c, s, run[0]);
      RunLeaves(c, Next(c, s, run[0]), run[1..], t);
      LeavesLater(c, s, run[0], run[1..], t);
      assert [run[0]] + run[1..] == run;
    }
  }

  /** A multipart upload is still pending when the call has ended exactly when its
      creation took effect although it reported an error, or its abortion failed
      and no completion took effect before. */
  lemma UploadsLeftPending(c: Params, s: State, run: seq<Action>, t: State)
    requires Start(c, s) && IsRun(c, s, run, t) && t.main.Finished?
    ensures t.s3.pending <==>
      CreateDone(false, true) in run || (AbortDone(false) in run && CompleteDone(false, true) !in run)
  {
    hide IsRun;
    RunLeaves(c, s, run, t);
  }

  // ---- buffers over every run --------------------------------------------

  lemma FewBuffers(c: Params, s: State)
    requires c.Valid() && Shape(c, s)
    ensures |Held(s)| <= 1 + 2 * c.workers
  {
    BagSize(s.queue, JobBufs);
    BagSize(s.workers, WorkerBufs);
  }

  lemma NothingLeftOut(c: Params, s: State)
    requires Shape(c, s) && Staffed(s) && s.main.Finished?
    ensures Held(s) == multiset{}
  {
    BagEmpty(s.workers, WorkerBufs);
  }

  /** One upload never has more than 1 + 2 * workers buffers out, each with a
      single holder, and on every way out (single put, failed creation, read or
      part failure, cancellation, success) all of them are back in the pool. */
  lemma BuffersAreBoundedAndReturned(c: Params, s: State, run: seq<Action>, t: State)
    requires c.Valid() && Start(c, s) && IsRun(c, s, run, t)
    ensures |Held(t)| <= 1 + 2 * c.workers
    ensures forall b :: b in Held(t) ==> Held(t)[b] == 1 && b !in t.mem.free && b !in t.mem.foreign
    ensures t.main.Finished? ==> t.mem.bytes.Keys == t.mem.free + t.mem.foreign && t.mem.free !! t.mem.foreign
  {
    StartHasInv(c, s);
    RunKeepsInv(c, s, run, t);
    hide Inv, IsRun, Start;
    Parts(c, t);
    hide Shape, Numbered, Staffed, Faithful, Accounted, Truthful, Held;
    FewBuffers(c, t);
    forall b | b in Held(t) ensures Held(t)[b] == 1 && b !in t.mem.free && b !in t.mem.foreign {
      HeldOnce(c, t, b);
    }
    if t.main.Finished? {
      NothingLeftOut(c, t);
      PoolHasAll(c, t);
    }
  }

  lemma PoolHasAll(c: Params, s: State)
    requires Owned(c, s) && Held(s) == multiset{}
    ensures s.mem.bytes.Keys == s.mem.free + s.mem.foreign && s.mem.free !! s.mem.foreign
  {
    hide Held;
    forall b ensures multiset(s.mem.free)[b] + multiset(s.mem.foreign)[b] == multiset(s.mem.bytes.Keys)[b] {
      assert (multiset(s.mem.free) + multiset(s.mem.foreign) + Held(s))[b] == multiset(s.mem.bytes.Keys)[b];
    }
    forall b ensures b in s.mem.bytes.Keys <==> b in s.mem.free + s.mem.foreign {
      assert multiset(s.mem.free)[b] + multiset(s.mem.foreign)[b] == multiset(s.mem.bytes.Keys)[b];
    }
    forall b ensures !(b in s.mem.free && b in s.mem.foreign) {
      assert multiset(s.mem.free)[b] + multiset(s.mem.foreign)[b] == multiset(s.mem.bytes.Keys)[b];
    }
  }

  /** A step of this upload leaves every buffer it does not hold as it was. */
  lemma ForeignBuffersUntouched(c: Params, s: State, a: Action)
    requires Owned(c, s) && Enabled(c, s, a) && a.Ours()
    ensures
      var t := Next(c, s, a);
      && t.mem.foreign == s.mem.foreign
      && forall b :: b in s.mem.foreign ==> b in s.mem.bytes && b in t.mem.bytes && t.mem.bytes[b] == s.mem.bytes[b]
  {
    hide Bag, Sort, Assembled, Acceptable;
    forall b | b in s.mem.foreign ensures b in s.mem.bytes && b !in Held(s) && b !in s.mem.free {
      assert multiset(s.mem.bytes.Keys)[b] == multiset(s.mem.free)[b] + multiset(s.mem.foreign)[b] + Held(s)[b];
    }
    if a.Read? {
      assert s.main.buf in Held(s);
    }
  }

  /** What one upload does to the memory is what every other upload tolerates:
      the buffers the other one holds are foreign to this one. With this the
      results above hold of any number of uploads sharing the pool. */
  lemma UploadsTolerateEachOther(c: Params, s: State, a: Action, theirs: set<BufId>)
    requires Owned(c, s) && Enabled(c, s, a) && a.Ours() && (s.main.Early() ==> s.workers == [])
    requires theirs <= s.mem.foreign
    ensures
      var t := Next(c, s, a);
      var before := Memory(s.mem.bytes, s.mem.free, s.mem.bytes.Keys - s.mem.free - theirs);
      var after := Memory(t.mem.bytes, t.mem.free, t.mem.bytes.Keys - t.mem.free - theirs);
      Tolerates(c, multiset(theirs), before, after)
  {
    hide Next, Enabled, Held;
    ForeignBuffersUntouched(c, s, a);
    StepKeepsOwned(c, s, a);
    var t := Next(c, s, a);
    Regroup(t.mem.free, t.mem.foreign, theirs, Held(t), t.mem.bytes.Keys);
  }

  lemma Regroup(free: set<BufId>, foreign: set<BufId>, theirs: set<BufId>, held: multiset<BufId>, all: set<BufId>)
    requires multiset(free) + multiset(foreign) + held == multiset(all) && theirs <= foreign
    ensures multiset(free) + multiset(all - free - theirs) + multiset(theirs) == multiset(all)
  {
    forall b ensures (multiset(free) + multiset(all - free - theirs) + multiset(theirs))[b] == multiset(all)[b] {
      assert (multiset(free) + multiset(foreign) + held)[b] == multiset(all)[b];
    }
  }
}
