/** An upload never gets stuck and always comes to an end. */
module UploadProgress {
  import opened Chunking
  import opened Prelude
  import opened Bags
  import opened UploadProtocol
  import opened UploadSafety
  import opened UploadResults

  /** No request fails and nobody cancels. */
  predicate Faultless(a: Action) {
    match a
    case Cancel => false
    case SinglePutDone(ok, _) => ok
    case CreateDone(ok, _) => ok
    case UploadDone(_, ok, _) => ok
    case CompleteDone(ok, _) => ok
    case _ => true
  }

  // ---- never stuck -------------------------------------------------------

  lemma {:induction false} SubsetSize(a: set<nat>, b: set<nat>)
    requires a <= b
    ensures |a| <= |b|
  {
    if a != {} {
      var x :| x in a;
      SubsetSize(a - {x}, b - {x});
    }
  }

  lemma Outsider(s: set<nat>) returns (x: nat)
    ensures x !in s
  {
    UpToSize(|s| + 1);
    if UpTo(|s| + 1) <= s {
      SubsetSize(UpTo(|s| + 1), s);
    }
    x :| x in UpTo(|s| + 1) && x !in s;
  }

  /** Any worker that has not gone home can move: take a job, finish an upload,
      hand back its buffer, record its part, or leave a closed empty channel. */
  lemma WorkerCanMove(c: Params, s: State, i: nat) returns (a: Action)
    requires Faithful(s) && IsWorker(s, i) && !s.workers[i].Gone()
    requires s.queue != [] || s.main.Closed() || !s.workers[i].Idle?
    ensures Enabled(c, s, a) && a.Ours() && Faultless(a)
  {
    hide SizeOf, HasPart, Acceptable, Sort, Tolerates, Held;
    assert WorkerRight(s, s.workers[i]);
    match s.workers[i]
    case Idle => a := if s.queue != [] then Take(i) else Exit(i);
    case Uploading(_) => a := UploadDone(i, true, true);
    case Returning(_, _) => a := PutBack(i);
    case Recording(_, _) => a := Record(i);
  }

  lemma ReaderCanMove(c: Params, s: State) returns (a: Action)
    requires Owned(c, s) && s.main.Filling? && s.main.n < c.partSize
    ensures Enabled(c, s, a) && a.Ours() && Faultless(a)
  {
    hide Bag, Tolerates, Acceptable, Sort;
    assert s.main.buf in Held(s);
    HeldOnce(c, s, s.main.buf);
    var room := c.partSize - s.main.n;
    if s.rest != [] {
      a := Read(s.rest[..1], Zeros(room - 1), More, 0);
    } else {
      a := Read([], Zeros(room), if c.doomed then Failed else Eof, 0);
    }
  }

  /** With the channel full the producer is freed by a worker, or, when all
      workers have died, by the cancelled context. */
  lemma SenderCanMove(c: Params, s: State) returns (a: Action)
    requires c.Valid() && Owned(c, s) && Shape(c, s) && Staffed(s) && Accounted(c, s) && Faithful(s) && s.main.Sending?
    ensures Enabled(c, s, a) && a.Ours() && Faultless(a)
  {
    hide Bag, Tolerates, Acceptable, Sort, Concat, WellCut, Faithful;
    assert s.main.buf in Held(s);
    HeldOnce(c, s, s.main.buf);
    if |s.queue| < c.workers {
      a := Send;
    } else if i :| 0 <= i < |s.workers| && !s.workers[i].Gone() {
      a := WorkerCanMove(c, s, i);
    } else {
      assert s.workers[0].Died?;
      a := GiveUp;
    }
  }

  lemma WaiterCanMove(c: Params, s: State) returns (a: Action)
    requires Faithful(s) && s.main.Waiting?
    ensures Enabled(c, s, a) && a.Ours() && Faultless(a)
  {
    hide Faithful;
    if AllGone(s) {
      a := AllWorkersGone;
    } else {
      var i :| 0 <= i < |s.workers| && !s.workers[i].Gone();
      a := WorkerCanMove(c, s, i);
    }
  }

  lemma FetcherCanMove(c: Params, s: State) returns (a: Action)
    requires s.main.FirstFetch? || s.main.Fetch?
    ensures Enabled(c, s, a) && a.Ours() && Faultless(a)
  {
    hide Acceptable, Sort, Tolerates, Held;
    var b := Outsider(s.mem.bytes.Keys);
    a := GetBuf(b);
  }

  lemma FinisherCanMove(c: Params, s: State) returns (a: Action)
    requires s.main.SinglePut? ==> CanSinglePut(s)
    requires s.main.Completing? ==> Acceptable(Sort(s.log.parts), s.s3.stored)
    requires s.main.SinglePut? || s.main.Creating? || s.main.Draining? || s.main.Completing? || s.main.Aborting?
    ensures Enabled(c, s, a) && a.Ours() && Faultless(a)
  {
    hide Acceptable, Sort, Tolerates, Held;
    a := if s.main.SinglePut? then SinglePutDone(true, true)
         else if s.main.Creating? then CreateDone(true, true)
         else if s.main.Completing? then CompleteDone(true, true)
         else if s.main.Aborting? then AbortDone(true)
         else if s.queue == [] then DrainDone else DrainOne;
  }

  /** In every state an upload can reach, short of the end, some step of its own
      is possible; nobody else has to act first, and no request has to fail. */
  lemma NotStuck(c: Params, s: State) returns (a: Action)
    requires Inv(c, s) && !s.main.Finished?
    ensures Enabled(c, s, a) && a.Ours() && Faultless(a)
  {
    Parts(c, s);
    hide Inv, Owned, Numbered, Staffed, Faithful, Accounted, Truthful, Enabled;
    match s.main
    case FirstFetch => a := FetcherCanMove(c, s);
    case Fetch => a := FetcherCanMove(c, s);
    case Filling(_, _, _) => a := ReaderCanMove(c, s);
    case Sending(_, _, _) => a := SenderCanMove(c, s);
    case Waiting => a := WaiterCanMove(c, s);
    case SinglePut(_, _) => SinglePutIsRight(c, s); a := FinisherCanMove(c, s);
    case Completing => CompletionIsRight(c, s); a := FinisherCanMove(c, s);
    case _ => a := FinisherCanMove(c, s);
  }

  lemma RunIsNeverStuck(c: Params, s: State, run: seq<Action>, t: State)
    requires c.Valid() && Start(c, s) && IsRun(c, s, run, t) && !t.main.Finished?
    ensures exists a :: Enabled(c, t, a) && a.Ours() && Faultless(a)
  {
    StartHasInv(c, s);
    RunKeepsInv(c, s, run, t);
    var a := NotStuck(c, t);
  }

  // ---- always ends -------------------------------------------------------

  function Rank(m: Main): nat {
    match m
    case FirstFetch => 12
    case Filling(first, _, _) => if first then 11 else 7
    case Creating(_, _) => 10
    case Sending(_, _, end) => if end.More? then 9 else 6
    case Fetch => 8
    case Waiting => 5
    case Draining => 4
    case Completing => 3
    case Aborting => 2
    case SinglePut(_, _) => 1
    case Finished(_) => 0
  }

  function Weight(w: Worker): nat {
    match w
    case Idle => 1
    case Uploading(_) => 4
    case Returning(_, _) => 3
    case Recording(_, _) => 2
    case _ => 0
  }

  /** Work left for the part workers. */
  function Load(s: State): nat {
    4 * |s.queue| + Total(s.workers, Weight)
  }

  /** Unread bytes first, then the reader's patience, then the caller's place in
      its program, then the workers' load. */
  ghost predicate Lower(t: State, s: State) {
    || |t.rest| < |s.rest|
    || (|t.rest| == |s.rest| && t.hiccups < s.hiccups)
    || (|t.rest| == |s.rest| && t.hiccups == s.hiccups && Rank(t.main) < Rank(s.main))
    || (|t.rest| == |s.rest| && t.hiccups == s.hiccups && Rank(t.main) == Rank(s.main) && Load(t) < Load(s))
  }

  lemma WorkerStepIsLower(c: Params, s: State, a: Action)
    requires Enabled(c, s, a) && a.ByWorker()
    ensures Lower(Next(c, s, a), s)
  {
    hide Total;
    var t := Next(c, s, a);
    TotalUpdate(s.workers, a.i, t.workers[a.i], Weight);
  }

  lemma ReadIsLower(c: Params, s: State, a: Action)
    requires c.Valid() && Enabled(c, s, a) && a.Read?
    ensures Lower(Next(c, s, a), s)
  {
    hide Load;
    var t := Next(c, s, a);
    if a.data == [] {
      assert t.rest == s.rest;
    }
  }

  /** Every step of the upload lowers the measure; cancellation and the other
      uploads leave it alone. */
  lemma StepIsLower(c: Params, s: State, a: Action)
    requires c.Valid() && Enabled(c, s, a)
    ensures a.Ours() ==> Lower(Next(c, s, a), s)
    ensures !a.Ours() ==>
      var t := Next(c, s, a);
      |t.rest| == |s.rest| && t.hiccups == s.hiccups && Rank(t.main) == Rank(s.main) && Load(t) == Load(s)
  {
    hide Total, Tolerates, Held, Acceptable, Sort, Assembled, CanRead, Filled, AfterRead;
    if a.ByWorker() {
      WorkerStepIsLower(c, s, a);
    } else if a.Read? {
      ReadIsLower(c, s, a);
    } else if a.DrainOne? {
      assert Next(c, s, a).queue == s.queue[1..];
    }
  }

  ghost predicate MovesAgain(acts: nat -> Action, i: nat) {
    exists j: nat :: i <= j && acts(j).Ours()
  }

  /** An infinite run in which the upload keeps moving. */
  ghost predicate Endless(c: Params, states: nat -> State, acts: nat -> Action) {
    && (forall i: nat :: Enabled(c, states(i), acts(i)) && states(i + 1) == Next(c, states(i), acts(i)))
    && (forall i: nat :: MovesAgain(acts, i))
  }

  lemma {:induction false} NoEndlessRunFrom(c: Params, states: nat -> State, acts: nat -> Action, i: nat, j: nat)
    requires c.Valid() && Endless(c, states, acts) && i <= j && acts(j).Ours()
    ensures false
    decreases |states(i).rest|, states(i).hiccups, Rank(states(i).main), Load(states(i)), j - i
  {
    hide Enabled, Next, Rank, Load;
    StepIsLower(c, states(i), acts(i));
    assert states(i + 1) == Next(c, states(i), acts(i));
    if acts(i).Ours() {
      assert MovesAgain(acts, i + 1);
      var k: nat :| i + 1 <= k && acts(k).Ours();
      NoEndlessRunFrom(c, states, acts, i + 1, k);
    } else {
      NoEndlessRunFrom(c, states, acts, i + 1, j);
    }
  }

  /** However the parties interleave, an upload makes only finitely many steps:
      with `RunIsNeverStuck`, it ends. */
  lemma UploadsEnd(c: Params, states: nat -> State, acts: nat -> Action)
    requires c.Valid()
    ensures !Endless(c, states, acts)
  {
    if Endless(c, states, acts) {
      assert MovesAgain(acts, 0);
      var j: nat :| 0 <= j && acts(j).Ours();
      NoEndlessRunFrom(c, states, acts, 0, j);
    }
  }

  // ---- a sound body and a sound store ------------------------------------

  ghost predicate Clean(s: State) {
    && s.flags == Flags(false, false, false)
    && s.main != Aborting && s.main != Finished(Failure)
    && forall i :: 0 <= i < |s.workers| && s.workers[i].Returning? ==> s.workers[i].ok
  }

  lemma StepKeepsClean(c: Params, s: State, a: Action)
    requires c.Valid() && !c.doomed && Accounted(c, s) && Clean(s) && Enabled(c, s, a) && Faultless(a)
    ensures Clean(Next(c, s, a))
  {
    hide WellCut, Concat, Tolerates, Held, Acceptable, Sort, Assembled;
    if a.ByWorker() {
      var t := Next(c, s, a);
      forall i | 0 <= i < |t.workers| && t.workers[i].Returning? ensures t.workers[i].ok {
        assert i != a.i ==> t.workers[i] == s.workers[i];
      }
    }
  }

  lemma {:induction false} RunKeepsClean(c: Params, s: State, run: seq<Action>, t: State)
    requires Inv(c, s) && !c.doomed && Clean(s) && IsRun(c, s, run, t) && forall a :: a in run ==> Faultless(a)
    ensures Clean(t)
    decreases |run|
  {
    if run != [] {
      hide Inv, Enabled, Next, Clean, Faultless;
      Parts(c, s);
      assert run[0] in run;
      StepKeepsInv(c, s, run[0]);
      StepKeepsClean(c, s, run[0]);
      RunKeepsClean(c, Next(c, s, run[0]), run[1..], t);
    }
  }

  /** Nothing but a fault makes an upload fail: a body that fits, sent to a store
      that accepts every request, is stored by every run that ends. */
  lemma FaultlessUploadsSucceed(c: Params, s: State, run: seq<Action>, t: State)
    requires c.Valid() && !c.doomed && Start(c, s) && !s.flags.cancelled && IsRun(c, s, run, t)
    requires (forall a :: a in run ==> Faultless(a)) && t.main.Finished?
    ensures t.main.outcome == Success(|c.body|) && t.s3.visible == Some(c.body)
  {
    StartHasInv(c, s);
    hide Inv, IsRun, Faultless;
    RunKeepsClean(c, s, run, t);
    UploadStoresTheBody(c, s, run, t);
  }

  lemma {:induction false} CanFinish(c: Params, s: State) returns (run: seq<Action>, t: State)
    requires Inv(c, s)
    ensures IsRun(c, s, run, t) && t.main.Finished? && forall a :: a in run ==> Faultless(a)
    decreases |s.rest|, s.hiccups, Rank(s.main), Load(s)
  {
    Parts(c, s);
    hide Inv, Enabled, Next, Load, Rank, Faultless, Owned, Numbered, Shape, Staffed, Accounted, Faithful, Truthful;
    if s.main.Finished? {
      run, t := [], s;
    } else {
      var a := NotStuck(c, s);
      StepIsLower(c, s, a);
      StepKeepsInv(c, s, a);
      var more;
      more, t := CanFinish(c, Next(c, s, a));
      run := [a] + more;
      assert run[1..] == more;
    }
  }

  lemma {:induction false} RunsCompose(c: Params, s: State, run: seq<Action>, m: State, more: seq<Action>, t: State)
    requires IsRun(c, s, run, m) && IsRun(c, m, more, t)
    ensures IsRun(c, s, run + more, t)
    decreases |run|
  {
    hide Enabled, Next;
    if run == [] {
      assert run + more == more;
    } else {
      assert (run + more)[1..] == run[1..] + more;
      RunsCompose(c, Next(c, s, run[0]), run[1..], m, more, t);
    }
  }

  /** And such a run does end: wherever it has come without a fault, it can be
      brought to its end, and then the body is stored. */
  lemma FaultlessUploadsCanFinish(c: Params, s: State, run: seq<Action>, m: State) returns (more: seq<Action>, t: State)
    requires c.Valid() && !c.doomed && Start(c, s) && !s.flags.cancelled && IsRun(c, s, run, m)
    requires forall a :: a in run ==> Faultless(a)
    ensures IsRun(c, m, more, t) && t.main == Finished(Success(|c.body|)) && t.s3.visible == Some(c.body)
  {
    StartHasInv(c, s);
    hide Inv, IsRun, Start, Faultless;
    RunKeepsInv(c, s, run, m);
    more, t := CanFinish(c, m);
    RunsCompose(c, s, run, m, more, t);
    FaultlessUploadsSucceed(c, s, run + more, t);
  }
}
