/** One worker process: a poller claims jobs into a bounded channel, a pool of
    workers runs them, and Stop winds everything down. No claimed job is lost or
    handled twice, and Stop returns. */
module WorkerPool {
  import opened Prelude
  import opened Bags
  import JobRuns

  type Ticket = JobRuns.Ticket

  /** WORKER_CONCURRENCY, which is also the channel's capacity, and
      WORKER_CLAIM_BATCH. */
  datatype Params = Params(workers: nat, batch: nat) {
    predicate Valid() { workers >= 1 && batch >= 1 }
  }

  datatype Poller =
    | Idle
    | Checking
    | Asking(limit: nat)
    | Sending(unsent: seq<Ticket>)
    | PollerGone

  datatype Member = Waiting | Running(ticket: Ticket) | Gone

  datatype Stopper = NotStopped | Joining | Draining | Stopped

  /** Every claimed job ends in one of four places: an outcome was recorded for it
      after processing, it was released by Stop, it was dropped, or its claim took
      effect although it reported an error, so that no worker ever held it. */
  datatype Ledger = Ledger(
    claimed: set<Ticket>, recorded: multiset<Ticket>, released: multiset<Ticket>, dropped: seq<Ticket>, lost: seq<Ticket>)

  datatype State = State(
    queue: seq<Ticket>,
    poller: Poller,
    members: seq<Member>,
    reaping: bool,
    cancelled: bool,
    stopper: Stopper,
    ledger: Ledger)
  {
    /** ctx.Done() or stopCh is ready. */
    predicate Ending() { cancelled || !stopper.NotStopped? }
  }

  datatype Action =
    | Tick
    | LeavePolling
    | CheckFree
    | Claim(batch: seq<Ticket>)
    | LoseClaim(batch: seq<Ticket>)
    | Send
    | DropRest
    | PollerExit
    | Take(i: nat)
    | Record(i: nat)
    | WorkerExit(i: nat)
    | ReaperExit
    | Cancel
    | Stop
    | Join
    | Release
    | Return

  function Start(p: Params): State {
    State([], Idle, seq(p.workers, _ => Waiting), true, false, NotStopped, Ledger({}, multiset{}, multiset{}, [], []))
  }

  predicate IsMember(s: State, i: nat) { i < |s.members| }

  /** What wg.Wait waits for. */
  predicate AllGone(s: State) {
    s.poller.PollerGone? && !s.reaping && forall i :: 0 <= i < |s.members| ==> s.members[i].Gone?
  }

  ghost predicate Distinct(batch: seq<Ticket>) {
    forall i, j :: 0 <= i < j < |batch| ==> batch[i] != batch[j]
  }

  /** What a claim can return: at most what was asked for, and new tickets only.
      Fleet proves this of the claims the jobs table grants. */
  ghost predicate Claimable(s: State, batch: seq<Ticket>) {
    && s.poller.Asking? && |batch| <= s.poller.limit && Distinct(batch)
    && forall t :: t in batch ==> t !in s.ledger.claimed
  }

  /** A claim without effect, failed or not, is an empty one. */
  ghost predicate Enabled(p: Params, s: State, a: Action) {
    match a
    case Tick => s.poller.Idle?
    case LeavePolling => s.poller.Checking? && s.Ending()
    case CheckFree => s.poller.Checking? && !s.Ending()
    case Claim(batch) => Claimable(s, batch)
    case LoseClaim(batch) => Claimable(s, batch)
    case Send => s.poller.Sending? && |s.queue| < p.workers
    case DropRest => s.poller.Sending? && s.cancelled
    case PollerExit => s.poller.Idle? && s.Ending()
    case Take(i) => IsMember(s, i) && s.members[i].Waiting? && s.queue != []
    case Record(i) => IsMember(s, i) && s.members[i].Running?
    case WorkerExit(i) => IsMember(s, i) && s.members[i].Waiting? && s.Ending()
    case ReaperExit => s.reaping && s.Ending()
    case Cancel => !s.cancelled
    case Stop => s.stopper.NotStopped?
    case Join => s.stopper.Joining? && AllGone(s)
    case Release => s.stopper.Draining? && s.queue != []
    case Return => s.stopper.Draining? && s.queue == []
  }

  /** Where the poller goes once `rest` is left to send. */
  function Onward(rest: seq<Ticket>): Poller {
    if rest == [] then Checking else Sending(rest)
  }

  function NextPoller(p: Params, s: State, a: Action): Poller {
    match a
    case Tick => Checking
    case LeavePolling => Idle
    case CheckFree => if |s.queue| >= p.workers then Idle else Asking(Min(p.workers - |s.queue|, p.batch))
    case Claim(batch) => if batch == [] then Idle else Sending(batch)
    case LoseClaim(_) => Idle
    case Send => if s.poller.Sending? && s.poller.unsent != [] then Onward(s.poller.unsent[1..]) else s.poller
    case DropRest => Idle
    case PollerExit => PollerGone
    case _ => s.poller
  }

  function NextQueue(s: State, a: Action): seq<Ticket> {
    if a.Send? && s.poller.Sending? && s.poller.unsent != [] then s.queue + [s.poller.unsent[0]]
    else if (a.Take? || a.Release?) && s.queue != [] then s.queue[1..]
    else s.queue
  }

  function Carried(m: Member): multiset<Ticket> {
    if m.Running? then multiset{m.ticket} else multiset{}
  }

  function NextMembers(s: State, a: Action): seq<Member> {
    match a
    case Take(i) => if IsMember(s, i) && s.queue != [] then s.members[i := Running(s.queue[0])] else s.members
    case Record(i) => if IsMember(s, i) then s.members[i := Waiting] else s.members
    case WorkerExit(i) => if IsMember(s, i) then s.members[i := Gone] else s.members
    case _ => s.members
  }

  function NextLedger(s: State, a: Action): Ledger {
    var l := s.ledger;
    match a
    case Claim(batch) => l.(claimed := l.claimed + set t | t in batch)
    case LoseClaim(batch) => l.(claimed := l.claimed + (set t | t in batch), lost := l.lost + batch)
    case Record(i) => l.(recorded := l.recorded + if IsMember(s, i) then Carried(s.members[i]) else multiset{})
    case Release => if s.queue != [] then l.(released := l.released + multiset{s.queue[0]}) else l
    case DropRest => if s.poller.Sending? then l.(dropped := l.dropped + s.poller.unsent) else l
    case _ => l
  }

  function NextStopper(s: State, a: Action): Stopper {
    match a
    case Stop => Joining
    case Join => Draining
    case Return => Stopped
    case _ => s.stopper
  }

  function Next(p: Params, s: State, a: Action): State {
    State(
      NextQueue(s, a),
      NextPoller(p, s, a),
      NextMembers(s, a),
      s.reaping && !a.ReaperExit?,
      s.cancelled || a.Cancel?,
      NextStopper(s, a),
      NextLedger(s, a))
  }

  ghost predicate IsRun(p: Params, s: State, run: seq<Action>, t: State)
    decreases |run|
  {
    if run == [] then s == t
    else Enabled(p, s, run[0]) && IsRun(p, Next(p, s, run[0]), run[1..], t)
  }

  // ---- the invariant -----------------------------------------------------

  function Unsent(s: State): seq<Ticket> {
    if s.poller.Sending? then s.poller.unsent else []
  }

  function Wanted(s: State): nat {
    if s.poller.Asking? then s.poller.limit else |Unsent(s)|
  }

  /** The channel has room for everything the poller holds or has asked for. */
  ghost predicate Roomy(p: Params, s: State) {
    && |s.queue| + Wanted(s) <= p.workers && Wanted(s) <= p.batch
    && (s.poller.Sending? ==> s.poller.unsent != [])
  }

  /** At most one batch is ever dropped, and only on cancellation. */
  ghost predicate DropsOk(p: Params, s: State) {
    && |s.ledger.dropped| <= Min(p.workers, p.batch)
    && (s.ledger.dropped != [] ==> s.cancelled && Wanted(s) == 0 && !s.poller.Asking?)
  }

  /** After the join nothing runs any more. */
  ghost predicate Joined(p: Params, s: State) {
    && (s.stopper.Draining? || s.stopper.Stopped? ==> AllGone(s))
    && (s.stopper.Stopped? ==> s.queue == [])
    && (s.poller.PollerGone? ==> s.Ending())
    && |s.members| == p.workers
  }

  /** Where a claimed job can be: in one place, and no other jobs are around. */
  function Places(s: State): multiset<Ticket> {
    multiset(s.queue) + multiset(Unsent(s)) + Bag(s.members, Carried)
      + s.ledger.recorded + s.ledger.released + multiset(s.ledger.dropped) + multiset(s.ledger.lost)
  }

  ghost predicate Balanced(s: State) {
    multiset(s.ledger.claimed) == Places(s)
  }

  ghost predicate Inv(p: Params, s: State) {
    Roomy(p, s) && DropsOk(p, s) && Joined(p, s) && Balanced(s)
  }

  lemma StepKeepsRoomy(p: Params, s: State, a: Action)
    requires p.Valid() && Roomy(p, s) && Enabled(p, s, a)
    ensures Roomy(p, Next(p, s, a))
  {
    hide NextMembers, NextLedger;
  }

  lemma StepKeepsDropsOk(p: Params, s: State, a: Action)
    requires p.Valid() && Roomy(p, s) && DropsOk(p, s) && Enabled(p, s, a)
    ensures DropsOk(p, Next(p, s, a))
  {
    hide NextMembers;
  }

  lemma StepKeepsJoined(p: Params, s: State, a: Action)
    requires p.Valid() && Joined(p, s) && Enabled(p, s, a)
    ensures Joined(p, Next(p, s, a))
  {
    hide NextLedger, Distinct;
  }

  lemma TakeOut(q: seq<Ticket>)
    requires q != []
    ensures multiset(q) == multiset{q[0]} + multiset(q[1..])
  {
    assert q == [q[0]] + q[1..];
  }

  lemma FreshBatch(claimed: set<Ticket>, batch: seq<Ticket>)
    requires Distinct(batch) && forall t :: t in batch ==> t !in claimed
    ensures multiset(claimed + set t | t in batch) == multiset(claimed) + multiset(batch)
  {
    forall t ensures multiset(batch)[t] == if t in batch then 1 else 0 {
      CountOnce(batch, t);
    }
  }

  lemma {:induction false} CountOnce(batch: seq<Ticket>, t: Ticket)
    requires Distinct(batch)
    ensures multiset(batch)[t] == if t in batch then 1 else 0
  {
    if batch != [] {
      TakeOut(batch);
      assert forall i :: 0 <= i < |batch| - 1 ==> batch[1..][i] == batch[i + 1];
      CountOnce(batch[1..], t);
    }
  }

  /** How often ticket `x` occurs in all places together. */
  function Count(s: State, x: Ticket): nat {
    multiset(s.queue)[x] + multiset(Unsent(s))[x] + Bag(s.members, Carried)[x]
      + s.ledger.recorded[x] + s.ledger.released[x] + multiset(s.ledger.dropped)[x] + multiset(s.ledger.lost)[x]
  }

  lemma BalancedByCount(s: State)
    ensures Balanced(s) <==> forall x :: multiset(s.ledger.claimed)[x] == Count(s, x)
  {
    hide Bag, Unsent;
    assert forall x :: Places(s)[x] == Count(s, x);
  }

  lemma ClaimCounts(s: State, t: State, batch: seq<Ticket>, x: Ticket)
    requires t.queue == s.queue && t.members == s.members && Unsent(s) == [] && Unsent(t) == batch
    requires Distinct(batch) && forall y :: y in batch ==> y !in s.ledger.claimed
    requires t.ledger == s.ledger.(claimed := s.ledger.claimed + set y | y in batch)
    ensures Count(t, x) - Count(s, x) == multiset(t.ledger.claimed)[x] - multiset(s.ledger.claimed)[x]
  {
    hide Bag, Unsent;
    FreshBatch(s.ledger.claimed, batch);
    assert multiset(t.ledger.claimed)[x] == multiset(s.ledger.claimed)[x] + multiset(batch)[x];
  }

  lemma LoseCounts(s: State, t: State, batch: seq<Ticket>, x: Ticket)
    requires t.queue == s.queue && t.members == s.members && Unsent(s) == [] && Unsent(t) == []
    requires Distinct(batch) && forall y :: y in batch ==> y !in s.ledger.claimed
    requires t.ledger == s.ledger.(claimed := s.ledger.claimed + (set y | y in batch), lost := s.ledger.lost + batch)
    ensures Count(t, x) - Count(s, x) == multiset(t.ledger.claimed)[x] - multiset(s.ledger.claimed)[x]
  {
    hide Bag, Unsent;
    FreshBatch(s.ledger.claimed, batch);
    assert multiset(t.ledger.claimed)[x] == multiset(s.ledger.claimed)[x] + multiset(batch)[x];
    assert multiset(t.ledger.lost)[x] == multiset(s.ledger.lost)[x] + multiset(batch)[x];
  }

  lemma SendCounts(s: State, t: State, x: Ticket)
    requires Unsent(s) != [] && t.queue == s.queue + [Unsent(s)[0]] && Unsent(t) == Unsent(s)[1..]
    requires t.members == s.members && t.ledger == s.ledger
    ensures Count(t, x) == Count(s, x)
  {
    hide Bag, Unsent;
    TakeOut(Unsent(s));
    assert multiset(Unsent(s))[x] == multiset{Unsent(s)[0]}[x] + multiset(Unsent(t))[x];
    assert multiset(t.queue)[x] == multiset(s.queue)[x] + multiset{Unsent(s)[0]}[x];
  }

  lemma DropCounts(s: State, t: State, x: Ticket)
    requires t.queue == s.queue && t.members == s.members && Unsent(t) == []
    requires t.ledger == s.ledger.(dropped := s.ledger.dropped + Unsent(s))
    ensures Count(t, x) == Count(s, x)
  {
    hide Bag, Unsent;
    assert multiset(t.ledger.dropped)[x] == multiset(s.ledger.dropped)[x] + multiset(Unsent(s))[x];
  }

  lemma ReleaseCounts(s: State, t: State, x: Ticket)
    requires s.queue != [] && t.queue == s.queue[1..] && t.members == s.members && Unsent(t) == Unsent(s)
    requires t.ledger == s.ledger.(released := s.ledger.released + multiset{s.queue[0]})
    ensures Count(t, x) == Count(s, x)
  {
    hide Bag, Unsent;
    TakeOut(s.queue);
    assert multiset(s.queue)[x] == multiset{s.queue[0]}[x] + multiset(t.queue)[x];
  }

  /** A member picks up, records or puts down a job. */
  lemma MemberCounts(s: State, t: State, i: nat, m: Member, x: Ticket)
    requires IsMember(s, i) && t.members == s.members[i := m] && Unsent(t) == Unsent(s)
    requires if m.Running? then s.members[i].Waiting? && s.queue == [m.ticket] + t.queue && t.ledger == s.ledger
             else t.queue == s.queue && t.ledger == s.ledger.(recorded := s.ledger.recorded + Carried(s.members[i]))
    ensures Count(t, x) == Count(s, x)
  {
    BagUpdate(s.members, i, m, Carried);
    hide Bag, Unsent;
    assert (Bag(t.members, Carried) + Carried(s.members[i]))[x] == (Bag(s.members, Carried) + Carried(m))[x];
    if m.Running? {
      TakeOut(s.queue);
      assert multiset(s.queue)[x] == multiset{m.ticket}[x] + multiset(t.queue)[x];
    }
  }

  lemma StepCounts(p: Params, s: State, a: Action, x: Ticket)
    requires Enabled(p, s, a) && Roomy(p, s)
    ensures var t := Next(p, s, a);
      Count(t, x) - Count(s, x) == multiset(t.ledger.claimed)[x] - multiset(s.ledger.claimed)[x]
  {
    hide Count;
    var t := Next(p, s, a);
    match a
    case Claim(batch) => ClaimCounts(s, t, batch, x);
    case LoseClaim(batch) => LoseCounts(s, t, batch, x);
    case Send => SendCounts(s, t, x);
    case DropRest => DropCounts(s, t, x);
    case Release => ReleaseCounts(s, t, x);
    case Take(i) => assert s.queue == [s.queue[0]] + t.queue; MemberCounts(s, t, i, t.members[i], x);
    case Record(i) => MemberCounts(s, t, i, Waiting, x);
    case WorkerExit(i) => NothingCarried(s, t); MemberCounts(s, t, i, Gone, x);
    case _ => OtherCounts(s, t, x);
  }

  lemma NothingCarried(s: State, t: State)
    requires t.ledger == s.ledger
    ensures t.ledger == s.ledger.(recorded := s.ledger.recorded + multiset{})
  {
    assert s.ledger.recorded + multiset{} == s.ledger.recorded;
  }

  lemma OtherCounts(s: State, t: State, x: Ticket)
    requires t.queue == s.queue && t.members == s.members && Unsent(t) == Unsent(s) && t.ledger == s.ledger
    ensures Count(t, x) == Count(s, x)
  {
  }

  lemma StepKeepsBalanced(p: Params, s: State, a: Action)
    requires Balanced(s) && Enabled(p, s, a) && Roomy(p, s)
    ensures Balanced(Next(p, s, a))
  {
    hide Balanced, Next, Enabled, Roomy, Count;
    BalancedByCount(s);
    BalancedByCount(Next(p, s, a));
    forall x ensures multiset(Next(p, s, a).ledger.claimed)[x] == Count(Next(p, s, a), x) {
      StepCounts(p, s, a, x);
    }
  }

  lemma StepKeepsInv(p: Params, s: State, a: Action)
    requires p.Valid() && Inv(p, s) && Enabled(p, s, a)
    ensures Inv(p, Next(p, s, a))
  {
    hide Roomy, DropsOk, Joined, Balanced, Next, Enabled;
    StepKeepsRoomy(p, s, a);
    StepKeepsDropsOk(p, s, a);
    StepKeepsJoined(p, s, a);
    StepKeepsBalanced(p, s, a);
  }

  lemma {:induction false} RunKeepsInv(p: Params, s: State, run: seq<Action>, t: State)
    requires p.Valid() && Inv(p, s) && IsRun(p, s, run, t)
    ensures Inv(p, t)
    decreases |run|
  {
    hide Inv, Next, Enabled;
    if run != [] {
      StepKeepsInv(p, s, run[0]);
      RunKeepsInv(p, Next(p, s, run[0]), run[1..], t);
    }
  }

  lemma StartHasInv(p: Params)
    ensures Inv(p, Start(p))
  {
    BagEmpty(Start(p).members, Carried);
  }

  ghost predicate Reachable(p: Params, s: State) {
    exists run :: IsRun(p, Start(p), run, s)
  }

  lemma ReachableInv(p: Params, s: State)
    requires p.Valid() && Reachable(p, s)
    ensures Inv(p, s)
  {
    var run :| IsRun(p, Start(p), run, s);
    StartHasInv(p);
    RunKeepsInv(p, Start(p), run, s);
  }

  // ---- what holds --------------------------------------------------------

  /** Because a claim never asks for more than the free capacity and only the
      poller sends, its sends never block. */
  lemma SendNeverBlocks(p: Params, s: State)
    requires p.Valid() && Reachable(p, s) && s.poller.Sending?
    ensures Enabled(p, s, Send) && |s.queue| + |s.poller.unsent| <= p.workers
  {
    ReachableInv(p, s);
  }

  /** And a claim asks for as much as fits, up to the batch size, if anything does. */
  lemma AsksForWhatFits(p: Params, s: State)
    requires Enabled(p, s, CheckFree)
    ensures |s.queue| >= p.workers ==> Next(p, s, CheckFree).poller == Idle
    ensures |s.queue| < p.workers ==>
      Next(p, s, CheckFree).poller == Asking(if p.workers - |s.queue| <= p.batch then p.workers - |s.queue| else p.batch)
  {
  }

  /** Once Stop has returned, every claimed job was either processed, with one
      outcome call, or released, once; the exceptions are the unsent tail of at
      most one batch, and that only if the context was cancelled, and the jobs of
      claims that took effect although they reported an error. */
  lemma ClaimedJobsAreHandledOnce(p: Params, s: State, t: Ticket)
    requires p.Valid() && Reachable(p, s) && s.stopper.Stopped?
    ensures s.queue == [] && AllGone(s)
    ensures s.ledger.recorded[t] + s.ledger.released[t] + multiset(s.ledger.dropped)[t] + multiset(s.ledger.lost)[t]
         == if t in s.ledger.claimed then 1 else 0
    ensures |s.ledger.dropped| <= Min(p.workers, p.batch)
    ensures s.ledger.dropped != [] ==> s.cancelled
  {
    ReachableInv(p, s);
    BagEmpty(s.members, Carried);
    assert multiset(s.ledger.claimed)[t] == Places(s)[t];
  }

  lemma {:induction false} OnlyTornClaimsLose(p: Params, s: State, run: seq<Action>, t: State)
    requires IsRun(p, s, run, t) && forall a :: a in run ==> !a.LoseClaim?
    ensures t.ledger.lost == s.ledger.lost
    decreases |run|
  {
    if run != [] {
      assert run[0] in run;
      OnlyTornClaimsLose(p, Next(p, s, run[0]), run[1..], t);
    }
  }

  /** No job is ever worked on by two members, or worked on and queued. */
  lemma NoJobInTwoPlaces(p: Params, s: State, i: nat, j: nat)
    requires p.Valid() && Reachable(p, s)
    requires i < |s.members| && j < |s.members| && s.members[i].Running? && s.members[j].Running?
    ensures s.members[i].ticket == s.members[j].ticket ==> i == j
    ensures s.members[i].ticket !in s.queue
  {
    ReachableInv(p, s);
    var x := s.members[i].ticket;
    BalancedByCount(s);
    assert multiset(s.ledger.claimed)[x] == Count(s, x);
    CarriedOnce(s.members, i, j);
  }

  lemma {:induction false} CarriedOnce(ms: seq<Member>, i: nat, j: nat)
    requires i < |ms| && j < |ms| && ms[i].Running? && ms[j].Running?
    ensures Bag(ms, Carried)[ms[i].ticket] >= if ms[i].ticket == ms[j].ticket && i != j then 2 else 1
  {
    if i == 0 || j == 0 {
      if i != 0 {
        BagMember(ms[1..], i - 1, Carried);
      } else if j != 0 {
        BagMember(ms[1..], j - 1, Carried);
      }
    } else {
      CarriedOnce(ms[1..], i - 1, j - 1);
    }
  }

  // ---- Stop returns ------------------------------------------------------

  /** Once Stop was called, some step other than a tick is possible until it has
      returned, provided claims and processing runs return. */
  lemma StopIsNeverStuck(p: Params, s: State) returns (a: Action)
    requires p.Valid() && Reachable(p, s) && !s.stopper.NotStopped? && !s.stopper.Stopped?
    ensures Enabled(p, s, a) && !a.Tick? && !a.Cancel?
  {
    hide IsRun, Balanced;
    ReachableInv(p, s);
    if !s.poller.PollerGone? {
      a := match s.poller
        case Idle => PollerExit
        case Checking => LeavePolling
        case Asking(_) => Claim([])
        case _ => Send;
    } else if s.reaping {
      a := ReaperExit;
    } else if i :| 0 <= i < |s.members| && !s.members[i].Gone? {
      a := if s.members[i].Running? then Record(i) else WorkerExit(i);
    } else {
      a := if s.stopper.Joining? then Join else if s.queue != [] then Release else Return;
    }
  }

  function Weight(m: Member): nat {
    match m
    case Running(_) => 3
    case Waiting => 1
    case Gone => 0
  }

  function PollerWork(q: Poller): nat {
    match q
    case Asking(limit) => 5 * limit + 4
    case Sending(unsent) => 5 * |unsent| + 3
    case Checking => 2
    case Idle => 1
    case PollerGone => 0
  }

  function StopperWork(q: Stopper): nat {
    match q
    case NotStopped => 3
    case Joining => 2
    case Draining => 1
    case Stopped => 0
  }

  /** What is left to do before Stop can return. */
  function Work(s: State): nat {
    PollerWork(s.poller) + 4 * |s.queue| + Total(s.members, Weight) + StopperWork(s.stopper)
      + (if s.reaping then 1 else 0) + (if s.cancelled then 0 else 1)
  }

  lemma StepLowersWork(p: Params, s: State, a: Action)
    requires Enabled(p, s, a) && Roomy(p, s) && !s.stopper.NotStopped?
    ensures Work(Next(p, s, a)) <= if a.Tick? then Work(s) + 1 else Work(s) - 1
  {
    hide Total, NextLedger;
    var t := Next(p, s, a);
    if a.Take? || a.Record? || a.WorkerExit? {
      TotalUpdate(s.members, a.i, t.members[a.i], Weight);
      assert t.members == s.members[a.i := t.members[a.i]];
    }
  }

  function Ticks(run: seq<Action>): nat {
    if run == [] then 0 else (if run[0].Tick? then 1 else 0) + Ticks(run[1..])
  }

  /** After Stop the process makes only boundedly many steps, apart from the
      poller looking at its ticker: with `StopIsNeverStuck`, Stop returns. */
  lemma {:induction false} StopEnds(p: Params, s: State, run: seq<Action>, t: State)
    requires p.Valid() && Inv(p, s) && !s.stopper.NotStopped? && IsRun(p, s, run, t)
    ensures |run| + Work(t) <= Work(s) + 2 * Ticks(run)
    decreases |run|
  {
    hide Inv, Next, Work;
    if run != [] {
      StillStopped(p, s, run[0]);
      hide Enabled;
      RoomyOf(p, s);
      StepLowersWork(p, s, run[0]);
      StepKeepsInv(p, s, run[0]);
      StopEnds(p, Next(p, s, run[0]), run[1..], t);
    }
  }

  lemma StillStopped(p: Params, s: State, a: Action)
    requires Enabled(p, s, a) && !s.stopper.NotStopped?
    ensures !Next(p, s, a).stopper.NotStopped?
  {
  }

  lemma RoomyOf(p: Params, s: State)
    requires Inv(p, s)
    ensures Roomy(p, s)
  {
  }
}
