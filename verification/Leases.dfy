/** One claimed job in time: the wait in the worker's queue, the heartbeat that
    extends the lease, and the reaper's clock. Nanoseconds throughout. */
module Leases {
  import opened Prelude
  import opened JobTable

  const HEARTBEAT_FLOOR: int := 100_000_000

  /** The configured lease, and what the surroundings allow themselves: the
      longest wait between claim and start, the longest time from a heartbeat
      tick until its extension is in the table, and how far the database clock
      may be from the worker's. */
  datatype Params = Params(lease: int, pickup: nat, write: nat, skew: nat) {
    predicate Valid() { lease > 0 }

    function Interval(): int {
      if lease / 2 > HEARTBEAT_FLOOR then lease / 2 else HEARTBEAT_FLOOR
    }

    /** The first extension is in the table before the claim's lease is over. */
    predicate Covered() { pickup + Interval() + write + skew <= lease }
  }

  datatype Phase = Queued | Running | Returned

  /** `ticks` are the heartbeat ticks whose extension is still under way. */
  datatype State = State(now: Time, claimedAt: Time, phase: Phase, row: Row, nextTick: Time, ticks: seq<Time>)

  datatype Action =
    | Advance(to: Time)
    | PickUp
    | Tick
    | Extended(issued: Time)
    | Return

  /** Time may pass only as far as no deadline is missed. */
  ghost predicate Enabled(p: Params, s: State, a: Action) {
    match a
    case Advance(to) =>
      && s.now < to
      && (s.phase.Queued? ==> to <= s.claimedAt + p.pickup)
      && (s.phase.Running? ==> to <= s.nextTick && (s.ticks != [] ==> to <= s.ticks[0] + p.write))
    case PickUp => s.phase.Queued?
    case Tick => s.phase.Running? && s.now == s.nextTick
    case Extended(issued) => s.phase.Running? && s.ticks != [] && s.ticks[0] <= issued <= s.now
    case Return => s.phase.Running?
  }

  function Next(p: Params, s: State, a: Action): State
    requires Enabled(p, s, a)
  {
    match a
    case Advance(to) => s.(now := to)
    case PickUp => s.(phase := Running, nextTick := s.now + p.Interval())
    case Tick => s.(ticks := s.ticks + [s.now], nextTick := s.now + p.Interval())
    case Extended(issued) => s.(row := ExtendRow(s.row, issued + p.lease), ticks := s.ticks[1..])
    case Return => s.(phase := Returned)
  }

  /** ClaimBatch has just stamped the row with the worker's clock plus lease. */
  ghost predicate Start(p: Params, s: State) {
    && s.phase.Queued? && s.now == s.claimedAt && s.ticks == []
    && s.row.status.Processing? && s.row.leaseUntil == Some(s.claimedAt + p.lease)
  }

  ghost predicate IsRun(p: Params, s: State, run: seq<Action>, t: State)
    decreases |run|
  {
    if run == [] then s == t
    else Enabled(p, s, run[0]) && IsRun(p, Next(p, s, run[0]), run[1..], t)
  }

  /** ReapExpired, run now, would requeue the job, for some database clock within
      the allowed skew. */
  ghost predicate Reapable(p: Params, s: State) {
    exists db :: s.now - p.skew <= db <= s.now + p.skew && Expired(s.row, db)
  }

  /** The ticks no extension in the table covers yet, the coming one included. */
  function Uncovered(s: State): seq<Time> {
    s.ticks + [s.nextTick]
  }

  ghost predicate Evenly(ticks: seq<Time>, interval: int) {
    forall i :: 0 <= i < |ticks| - 1 ==> ticks[i] + interval == ticks[i + 1]
  }

  ghost predicate Inv(p: Params, s: State) {
    && s.row.status.Processing? && s.row.leaseUntil.Some?
    && (s.phase.Queued? ==>
        s.now <= s.claimedAt + p.pickup && s.row.leaseUntil.value == s.claimedAt + p.lease && s.ticks == [])
    && (s.phase.Running? ==>
        && s.now <= s.nextTick && s.now <= Uncovered(s)[0] + p.write
        && Evenly(Uncovered(s), p.Interval())
        && Uncovered(s)[0] + p.write + p.skew <= s.row.leaseUntil.value)
  }

  lemma StepKeepsInv(p: Params, s: State, a: Action)
    requires p.Valid() && p.Covered() && Inv(p, s) && Enabled(p, s, a)
    ensures Inv(p, Next(p, s, a))
  {
    var t := Next(p, s, a);
    match a
    case Extended(_) => assert Uncovered(t) == Uncovered(s)[1..];
    case Tick => assert Uncovered(t) == Uncovered(s) + [t.nextTick];
    case PickUp => assert Uncovered(t) == [t.nextTick];
    case _ => assert Uncovered(t) == Uncovered(s);
  }

  lemma {:induction false} RunKeepsInv(p: Params, s: State, run: seq<Action>, t: State)
    requires p.Valid() && p.Covered() && Inv(p, s) && IsRun(p, s, run, t)
    ensures Inv(p, t)
    decreases |run|
  {
    hide Inv, Enabled, Next;
    if run != [] {
      StepKeepsInv(p, s, run[0]);
      RunKeepsInv(p, Next(p, s, run[0]), run[1..], t);
    }
  }

  /** However long the job runs, while it is queued or running no reaper can
      take it. */
  lemma CoveredIsSafe(p: Params, s: State, run: seq<Action>, t: State)
    requires p.Valid() && Start(p, s) && IsRun(p, s, run, t) && !t.phase.Returned?
    requires p.pickup + (if p.lease / 2 > 100_000_000 then p.lease / 2 else 100_000_000) + p.write + p.skew <= p.lease
    ensures !Reapable(p, t)
  {
    RunKeepsInv(p, s, run, t);
    hide IsRun;
  }

  lemma {:induction false} RunSnoc(p: Params, s: State, run: seq<Action>, m: State, a: Action)
    requires IsRun(p, s, run, m) && Enabled(p, m, a)
    ensures IsRun(p, s, run + [a], Next(p, m, a))
    decreases |run|
  {
    if run == [] {
      assert [a][1..] == [];
      assert IsRun(p, Next(p, m, a), [], Next(p, m, a));
    } else {
      RunSnoc(p, Next(p, s, run[0]), run[1..], m, a);
      assert (run + [a])[1..] == run[1..] + [a];
    }
  }

  /** While time passes up to `end`, which no pending extension forbids, the
      heartbeat ticks but no extension gets through. */
  lemma {:induction false} WaitOut(p: Params, s: State, run: seq<Action>, m: State, end: Time)
    returns (run': seq<Action>, t: State)
    requires IsRun(p, s, run, m) && m.phase.Running? && m.now <= end && m.now <= m.nextTick
    requires if m.ticks != [] then end <= m.ticks[0] + p.write else end <= m.nextTick + p.write
    ensures IsRun(p, s, run', t) && t.phase.Running? && t.now == end && t.row == m.row
    decreases end - m.now, if m.now == m.nextTick then 1 else 0
  {
    if m.now == end {
      return run, m;
    }
    var a := if m.now == m.nextTick then Tick else Advance(Min(m.nextTick, end));
    hide IsRun;
    RunSnoc(p, s, run, m, a);
    run', t := WaitOut(p, s, run + [a], Next(p, m, a), end);
  }

  /** Without the cover the slowest run loses its job: picked up as late as
      allowed, it is reaped before its first extension is in the table. */
  lemma UncoveredIsReaped(p: Params, s: State) returns (run: seq<Action>, t: State)
    requires p.Valid() && Start(p, s)
    requires p.pickup + (if p.lease / 2 > 100_000_000 then p.lease / 2 else 100_000_000) + p.write + p.skew > p.lease
    ensures IsRun(p, s, run, t) && t.phase.Running? && Reapable(p, t)
  {
    var m := s;
    run := [];
    assert IsRun(p, s, [], s);
    hide IsRun;
    if p.pickup > 0 {
      RunSnoc(p, s, run, m, Advance(s.now + p.pickup));
      run, m := run + [Advance(s.now + p.pickup)], Next(p, m, Advance(s.now + p.pickup));
    }
    RunSnoc(p, s, run, m, PickUp);
    run, m := run + [PickUp], Next(p, m, PickUp);
    run, t := WaitOut(p, s, run, m, m.nextTick + p.write);
    assert Expired(t.row, t.now + p.skew);
  }

  ghost predicate Safe(p: Params, s: State) {
    forall run, t :: IsRun(p, s, run, t) && t.phase.Running? ==> !Reapable(p, t)
  }

  /** A running job is safe from the reaper exactly when pick-up, heartbeat
      interval, write latency and clock skew fit into the lease together. */
  lemma SafeIffCovered(p: Params, s: State)
    requires p.Valid() && Start(p, s)
    ensures Safe(p, s) <==>
      p.pickup + (if p.lease / 2 > 100_000_000 then p.lease / 2 else 100_000_000) + p.write + p.skew <= p.lease
  {
    hide IsRun, Reapable;
    if p.Covered() {
      forall run, t | IsRun(p, s, run, t) && t.phase.Running? ensures !Reapable(p, t) {
        CoveredIsSafe(p, s, run, t);
      }
    } else {
      var run, t := UncoveredIsReaped(p, s);
    }
  }
}
