/** One upload of a body of unknown length: the producer, the bounded channel,
    the part workers, the shared buffer pool and the object store, as a machine
    whose steps interleave in any order. Every request to the store may fail, a
    failed request may have taken effect all the same, the context may be
    cancelled at any time, and other uploads use the same pool meanwhile. */
module UploadProtocol {
  import opened Chunking
  import opened Prelude
  import opened Bags

  type BufId = nat

  /** `doomed` bodies are those whose reader ends in an error: too long for the
      cap, or broken off by the client. */
  datatype Params = Params(partSize: nat, workers: nat, body: seq<byte>, doomed: bool) {
    predicate Valid() { partSize > 0 && workers > 0 }
  }

  /** The part-sized buffers: free in the pool, or held by other uploads, or
      (all the rest) held by this one. */
  datatype Memory = Memory(bytes: map<BufId, seq<byte>>, free: set<BufId>, foreign: set<BufId>)

  datatype Job = Job(num: nat, buf: BufId, n: nat)

  datatype ReadEnd = More | Eof | Failed

  datatype Outcome = Success(total: nat) | Failure

  /** The caller's goroutine, from putAuto through produceParts to the reply. */
  datatype Main =
    | FirstFetch
    | Filling(first: bool, buf: BufId, n: nat)
    | SinglePut(buf: BufId, n: nat)
    | Creating(buf: BufId, n: nat)
    | Sending(buf: BufId, n: nat, end: ReadEnd)
    | Fetch
    | Waiting
    | Draining
    | Completing
    | Aborting
    | Finished(outcome: Outcome)
  {
    /** The jobs channel has been closed. */
    predicate Closed() { Waiting? || Draining? || Completing? || Aborting? || Finished? }

    /** No multipart upload has been created yet. */
    predicate Early() { FirstFetch? || (Filling? && first) || SinglePut? || Creating? }
  }

  datatype Worker =
    | Idle
    | Uploading(job: Job)
    | Returning(job: Job, ok: bool)
    | Recording(num: nat, n: nat)
    | Exited
    | Died
  {
    predicate Gone() { Exited? || Died? }
  }

  /** The shared variables of the goroutines: has the context been cancelled, did
      produceParts return an error, did a part worker. */
  datatype Flags = Flags(cancelled: bool, produceFailed: bool, partFailed: bool)

  /** `parts` and `total` are what the workers record. `sent` (the bytes of every
      part put into the channel) and `lost` (the numbers of parts that will never
      be recorded) are bookkeeping of the model only. */
  datatype Ledger = Ledger(parts: seq<nat>, total: nat, sent: seq<seq<byte>>, lost: multiset<nat>)

  /** The store: uploaded parts, the object once there is one, whether a multipart
      upload has been created and neither completed nor aborted, and whether
      completion and abortion have been requested. */
  datatype Bucket = Bucket(
    stored: map<nat, seq<byte>>, visible: Option<seq<byte>>, pending: bool, asked: bool, aborted: bool)

  datatype State = State(
    mem: Memory,
    rest: seq<byte>,
    hiccups: nat,
    main: Main,
    queue: seq<Job>,
    workers: seq<Worker>,
    flags: Flags,
    log: Ledger,
    s3: Bucket)

  datatype Action =
    | Cancel
    | Others(mem: Memory)
    | GetBuf(buf: BufId)
    | Read(data: seq<byte>, scratch: seq<byte>, end: ReadEnd, patience: nat)
    | SinglePutDone(ok: bool, applied: bool)
    | CreateDone(ok: bool, applied: bool)
    | Send
    | GiveUp
    | AllWorkersGone
    | DrainOne
    | DrainDone
    | CompleteDone(ok: bool, applied: bool)
    | AbortDone(applied: bool)
    | Take(i: nat)
    | UploadDone(i: nat, ok: bool, applied: bool)
    | PutBack(i: nat)
    | Record(i: nat)
    | Exit(i: nat)
  {
    /** A step of this upload, not of its surroundings. */
    predicate Ours() { !Cancel? && !Others? }

    predicate ByWorker() { Take? || UploadDone? || PutBack? || Record? || Exit? }

    /** The caller's steps once the channel is closed. */
    predicate Closing() { AllWorkersGone? || DrainOne? || DrainDone? || CompleteDone? || AbortDone? }
  }

  // ---- who holds which buffer, and where each part number is -------------

  function MainBufs(m: Main): multiset<BufId> {
    match m
    case Filling(_, b, _) => multiset{b}
    case SinglePut(b, _) => multiset{b}
    case Creating(b, _) => multiset{b}
    case Sending(b, _, _) => multiset{b}
    case _ => multiset{}
  }

  function JobBufs(j: Job): multiset<BufId> { multiset{j.buf} }

  function JobNums(j: Job): multiset<nat> { multiset{j.num} }

  function WorkerBufs(w: Worker): multiset<BufId> {
    match w
    case Uploading(j) => multiset{j.buf}
    case Returning(j, _) => multiset{j.buf}
    case _ => multiset{}
  }

  function WorkerNums(w: Worker): multiset<nat> {
    match w
    case Uploading(j) => multiset{j.num}
    case Returning(j, _) => multiset{j.num}
    case Recording(num, _) => multiset{num}
    case _ => multiset{}
  }

  /** The buffers this upload has checked out, with multiplicity. */
  function Held(s: State): multiset<BufId> {
    MainBufs(s.main) + Bag(s.queue, JobBufs) + Bag(s.workers, WorkerBufs)
  }

  // ---- the steps ---------------------------------------------------------

  function Zeros(n: nat): seq<byte> { seq(n, _ => 0) }

  function Free(m: Memory, b: BufId): Memory { m.(free := m.free + {b}) }

  /** What other uploads may do to the memory: anything except touch the
      buffers this one holds. The pool may also drop free buffers. */
  ghost predicate Tolerates(c: Params, held: multiset<BufId>, m: Memory, m': Memory) {
    && (forall b :: b in held && b in m.bytes ==> b in m'.bytes && m'.bytes[b] == m.bytes[b])
    && multiset(m'.free) + multiset(m'.foreign) + held == multiset(m'.bytes.Keys)
    && forall b :: b in m'.bytes ==> |m'.bytes[b]| == c.partSize
  }

  /** The manifest the store accepts: ascending numbers of parts it has. */
  ghost predicate Acceptable(manifest: seq<nat>, stored: map<nat, seq<byte>>) {
    Ascending(manifest) && forall k :: k in manifest ==> k in stored
  }

  /** CompleteMultipartUpload: the listed parts, laid end to end. */
  function Assembled(manifest: seq<nat>, stored: map<nat, seq<byte>>): seq<byte> {
    if manifest == [] then []
    else
      var last := manifest[|manifest| - 1];
      Assembled(manifest[..|manifest| - 1], stored) + if last in stored then stored[last] else []
  }

  // Fetching and filling a buffer.

  predicate CanGetBuf(s: State, b: BufId) {
    (s.main.FirstFetch? || s.main.Fetch?) && (b in s.mem.free || b !in s.mem.bytes)
  }

  function DoGetBuf(c: Params, s: State, b: BufId): State {
    var mem := if b in s.mem.free then s.mem.(free := s.mem.free - {b})
               else s.mem.(bytes := s.mem.bytes[b := Zeros(c.partSize)]);
    s.(mem := mem, main := Filling(s.main.FirstFetch?, b, 0))
  }

  /** One read of the body into the buffer in hand. A doomed body never reports
      its end, a sound one never fails, and an empty read costs patience. */
  predicate CanRead(c: Params, s: State, data: seq<byte>, scratch: seq<byte>, end: ReadEnd, patience: nat) {
    && s.main.Filling? && s.main.buf in s.mem.bytes && s.main.n < c.partSize == |s.mem.bytes[s.main.buf]|
    && |data| + |scratch| == c.partSize - s.main.n && data <= s.rest
    && (end.More? && data == [] ==> patience < s.hiccups)
    && (end.Eof? ==> !c.doomed && data == s.rest)
    && (end.Failed? ==> c.doomed)
  }

  /** The bytes land behind those already there; the reader may have scribbled on
      the rest of the buffer. */
  function Filled(c: Params, s: State, data: seq<byte>, scratch: seq<byte>, end: ReadEnd, patience: nat): State
    requires CanRead(c, s, data, scratch, end, patience)
  {
    var b := s.main.buf;
    var bytes := s.mem.bytes[b := s.mem.bytes[b][..s.main.n] + data + scratch];
    s.(mem := s.mem.(bytes := bytes), rest := s.rest[|data|..],
       hiccups := if end.More? then patience else s.hiccups,
       main := Filling(s.main.first, b, s.main.n + |data|))
  }

  /** `fill` goes on, or hands its result to putAuto for the first buffer and to
      the loop of produceParts for the others. An empty fill sends no part. */
  function MainAfterRead(c: Params, m: Main, end: ReadEnd): Main
    requires m.Filling?
  {
    if end.More? && m.n < c.partSize then m
    else if m.first then
      match end
      case More => Creating(m.buf, m.n)
      case Eof => SinglePut(m.buf, m.n)
      case Failed => Finished(Failure)
    else if m.n > 0 then Sending(m.buf, m.n, end)
    else Waiting
  }

  function AfterRead(c: Params, s: State, end: ReadEnd): State
    requires s.main.Filling?
  {
    var main := MainAfterRead(c, s.main, end);
    s.(main := main,
       mem := if main.Closed() then Free(s.mem, s.main.buf) else s.mem,
       flags := s.flags.(produceFailed := main.Waiting? && end.Failed?))
  }

  // The ends of putAuto that need no multipart upload, and its creation.

  predicate CanSinglePut(s: State) {
    s.main.SinglePut? && s.main.buf in s.mem.bytes && s.main.n <= |s.mem.bytes[s.main.buf]|
  }

  function DoSinglePut(s: State, ok: bool, applied: bool): State
    requires CanSinglePut(s)
  {
    var data := s.mem.bytes[s.main.buf][..s.main.n];
    s.(main := Finished(if ok then Success(s.main.n) else Failure), mem := Free(s.mem, s.main.buf),
       s3 := s.s3.(visible := if ok || applied then Some(data) else s.s3.visible))
  }

  function DoCreate(c: Params, s: State, ok: bool, applied: bool): State
    requires s.main.Creating?
  {
    s.(main := if ok then Sending(s.main.buf, s.main.n, More) else Finished(Failure),
       workers := if ok then seq(c.workers, _ => Idle) else s.workers,
       mem := if ok then s.mem else Free(s.mem, s.main.buf),
       s3 := s.s3.(pending := ok || applied))
  }

  // The producer's select.

  predicate CanSend(c: Params, s: State) {
    s.main.Sending? && |s.queue| < c.workers && s.main.buf in s.mem.bytes && s.main.n <= |s.mem.bytes[s.main.buf]|
  }

  function DoSend(c: Params, s: State): State
    requires CanSend(c, s)
  {
    s.(queue := s.queue + [Job(|s.log.sent| + 1, s.main.buf, s.main.n)],
       log := s.log.(sent := s.log.sent + [s.mem.bytes[s.main.buf][..s.main.n]]),
       main := if s.main.end.More? then Fetch else Waiting,
       flags := s.flags.(produceFailed := s.main.end.Failed?))
  }

  function DoGiveUp(s: State): State
    requires s.main.Sending?
  {
    s.(main := Waiting, mem := Free(s.mem, s.main.buf), flags := s.flags.(produceFailed := true))
  }

  // After the channel is closed.

  predicate AllGone(s: State) {
    forall i :: 0 <= i < |s.workers| ==> s.workers[i].Gone()
  }

  function DoDrainOne(s: State): State
    requires s.queue != []
  {
    s.(queue := s.queue[1..], mem := Free(s.mem, s.queue[0].buf),
       log := s.log.(lost := s.log.lost + multiset{s.queue[0].num}))
  }

  function DoDrainDone(s: State): State {
    s.(main := if s.flags.produceFailed || s.flags.partFailed then Aborting else Completing)
  }

  function DoComplete(s: State, ok: bool, applied: bool): State {
    var visible := if ok || applied then Some(Assembled(Sort(s.log.parts), s.s3.stored)) else s.s3.visible;
    s.(main := if ok then Finished(Success(s.log.total)) else Aborting,
       s3 := s.s3.(asked := true, visible := visible, pending := s.s3.pending && !ok && !applied))
  }

  // The part workers.

  predicate IsWorker(s: State, i: nat) { i < |s.workers| }

  function DoTake(s: State, i: nat): State
    requires IsWorker(s, i) && s.queue != []
  {
    s.(workers := s.workers[i := Uploading(s.queue[0])], queue := s.queue[1..])
  }

  predicate CanUpload(s: State, i: nat) {
    && IsWorker(s, i) && s.workers[i].Uploading?
    && var j := s.workers[i].job; j.buf in s.mem.bytes && j.n <= |s.mem.bytes[j.buf]|
  }

  function DoUpload(s: State, i: nat, ok: bool, applied: bool): State
    requires CanUpload(s, i)
  {
    var j := s.workers[i].job;
    var stored := if ok || applied then s.s3.stored[j.num := s.mem.bytes[j.buf][..j.n]] else s.s3.stored;
    s.(workers := s.workers[i := Returning(j, ok)], s3 := s.s3.(stored := stored))
  }

  function DoPutBack(s: State, i: nat): State
    requires IsWorker(s, i) && s.workers[i].Returning?
  {
    var j, ok := s.workers[i].job, s.workers[i].ok;
    s.(workers := s.workers[i := if ok then Recording(j.num, j.n) else Died], mem := Free(s.mem, j.buf),
       flags := if ok then s.flags else s.flags.(cancelled := true, partFailed := true),
       log := if ok then s.log else s.log.(lost := s.log.lost + multiset{j.num}))
  }

  function DoRecord(s: State, i: nat): State
    requires IsWorker(s, i) && s.workers[i].Recording?
  {
    s.(workers := s.workers[i := Idle],
       log := s.log.(parts := s.log.parts + [s.workers[i].num], total := s.log.total + s.workers[i].n))
  }

  function DoExit(s: State, i: nat): State
    requires IsWorker(s, i)
  {
    s.(workers := s.workers[i := Exited])
  }

  ghost predicate Enabled(c: Params, s: State, a: Action) {
    match a
    case Cancel => !s.flags.cancelled
    case Others(mem) => Tolerates(c, Held(s), s.mem, mem)
    case GetBuf(b) => CanGetBuf(s, b)
    case Read(data, scratch, end, patience) => CanRead(c, s, data, scratch, end, patience)
    case SinglePutDone(_, _) => CanSinglePut(s)
    case CreateDone(_, _) => s.main.Creating?
    case Send => CanSend(c, s)
    case GiveUp => s.main.Sending? && s.flags.cancelled
    case AllWorkersGone => s.main.Waiting? && AllGone(s)
    case DrainOne => s.main.Draining? && s.queue != []
    case DrainDone => s.main.Draining? && s.queue == []
    case CompleteDone(ok, applied) => s.main.Completing? && (ok || applied ==> Acceptable(Sort(s.log.parts), s.s3.stored))
    case AbortDone(_) => s.main.Aborting?
    case Take(i) => IsWorker(s, i) && s.workers[i].Idle? && s.queue != []
    case UploadDone(i, _, _) => CanUpload(s, i)
    case PutBack(i) => IsWorker(s, i) && s.workers[i].Returning?
    case Record(i) => IsWorker(s, i) && s.workers[i].Recording?
    case Exit(i) => IsWorker(s, i) && s.workers[i].Idle? && s.queue == [] && s.main.Closed()
  }

  function Next(c: Params, s: State, a: Action): State
    requires Enabled(c, s, a)
  {
    match a
    case Cancel => s.(flags := s.flags.(cancelled := true))
    case Others(mem) => s.(mem := mem)
    case GetBuf(b) => DoGetBuf(c, s, b)
    case Read(data, scratch, end, patience) => AfterRead(c, Filled(c, s, data, scratch, end, patience), end)
    case SinglePutDone(ok, applied) => DoSinglePut(s, ok, applied)
    case CreateDone(ok, applied) => DoCreate(c, s, ok, applied)
    case Send => DoSend(c, s)
    case GiveUp => DoGiveUp(s)
    case AllWorkersGone => s.(main := Draining)
    case DrainOne => DoDrainOne(s)
    case DrainDone => DoDrainDone(s)
    case CompleteDone(ok, applied) => DoComplete(s, ok, applied)
    case AbortDone(applied) =>
      s.(main := Finished(Failure), s3 := s.s3.(aborted := true, pending := s.s3.pending && !applied))
    case Take(i) => DoTake(s, i)
    case UploadDone(i, ok, applied) => DoUpload(s, i, ok, applied)
    case PutBack(i) => DoPutBack(s, i)
    case Record(i) => DoRecord(s, i)
    case Exit(i) => DoExit(s, i)
  }

  /** Before the call: no buffer of ours is out, the pool is shared and dirty. */
  ghost predicate Start(c: Params, s: State) {
    && s.main == FirstFetch && s.rest == c.body
    && s.queue == [] && s.workers == [] && s.log.sent == [] && s.log.parts == []
    && s.log.lost == multiset{} && s.s3.stored == map[] && s.log.total == 0 && !s.s3.pending
    && !s.flags.produceFailed && !s.flags.partFailed && !s.s3.asked && !s.s3.aborted && s.s3.visible == None
    && Owned(c, s)
  }

  ghost predicate IsRun(c: Params, s: State, run: seq<Action>, t: State)
    decreases |run|
  {
    if run == [] then s == t
    else Enabled(c, s, run[0]) && IsRun(c, Next(c, s, run[0]), run[1..], t)
  }

  // ---- the invariant -----------------------------------------------------

  /** Every buffer has exactly one holder: the pool, another upload, the
      caller, one queued job or one worker. */
  ghost predicate Owned(c: Params, s: State) {
    && multiset(s.mem.free) + multiset(s.mem.foreign) + Held(s) == multiset(s.mem.bytes.Keys)
    && forall b :: b in s.mem.bytes ==> |s.mem.bytes[b]| == c.partSize
  }

  /** The part numbers in the queue, with the workers, recorded and lost. */
  function Placed(s: State): multiset<nat> {
    Bag(s.queue, JobNums) + Bag(s.workers, WorkerNums) + multiset(s.log.parts) + s.log.lost
  }

  /** Every number handed out is in exactly one place. */
  ghost predicate Numbered(s: State) {
    Placed(s) == multiset(UpTo(|s.log.sent|))
  }

  /** The control state hangs together. */
  ghost predicate Shape(c: Params, s: State) {
    && |s.queue| <= c.workers
    && (s.main.Filling? ==> s.main.n < c.partSize)
    && (s.main.Early() ==> s.workers == [] && s.log.sent == [] && s.log.parts == [] && s.s3.stored == map[])
    && (s.workers == [] ==> s.queue == [] && s.log.sent == [] && !s.flags.produceFailed && !s.flags.partFailed && !s.s3.asked && !s.s3.aborted)
    && (s.workers == [] ==> s.main.Early() || s.main.Finished?)
    && (s.workers != [] ==> |s.workers| == c.workers && !s.main.Early())
    && (s.flags.produceFailed ==> s.main.Closed())
    && (s.flags.partFailed ==> s.flags.cancelled)
    && (s.s3.asked ==> !s.flags.produceFailed && !s.flags.partFailed && (s.main.Aborting? || s.main.Finished?))
    && (s.main.Completing? ==> !s.flags.produceFailed && !s.flags.partFailed && !s.s3.asked)
    && (s.main.Aborting? ==> s.flags.produceFailed || s.flags.partFailed || s.s3.asked)
    && (s.main.Completing? || s.main.Aborting? || s.main.Finished? ==> s.queue == [])
    && (s.s3.aborted ==> s.main == Finished(Failure))
    && (s.main == Finished(Failure) && s.workers != [] ==> s.s3.aborted)
    && (s.log.lost != multiset{} ==> s.flags.partFailed)
  }

  /** The part workers' side of the control state. */
  ghost predicate Staffed(s: State) {
    && (forall i :: 0 <= i < |s.workers| && s.workers[i].Died? ==> s.flags.partFailed)
    && (forall i :: 0 <= i < |s.workers| && s.workers[i].Exited? ==> s.main.Closed() && s.queue == [])
    && (s.main.Draining? || s.main.Completing? || s.main.Aborting? || s.main.Finished? ==>
        AllGone(s))
  }

  /** The bytes of the buffer the caller is working on. */
  function InHand(s: State): seq<byte> {
    match s.main
    case Filling(_, b, n) => if b in s.mem.bytes && n <= |s.mem.bytes[b]| then s.mem.bytes[b][..n] else []
    case SinglePut(b, n) => if b in s.mem.bytes && n <= |s.mem.bytes[b]| then s.mem.bytes[b][..n] else []
    case Creating(b, n) => if b in s.mem.bytes && n <= |s.mem.bytes[b]| then s.mem.bytes[b][..n] else []
    case Sending(b, n, _) => if b in s.mem.bytes && n <= |s.mem.bytes[b]| then s.mem.bytes[b][..n] else []
    case _ => []
  }

  /** Nothing is read twice and nothing is skipped: what was sent, what is in
      hand and what is still to come make up the body. */
  ghost predicate Accounted(c: Params, s: State) {
    && WellCut(s.log.sent, c.partSize)
    && (!s.main.Closed() ==>
        && Concat(s.log.sent) + InHand(s) + s.rest == c.body
        && forall i :: 0 <= i < |s.log.sent| ==> |s.log.sent[i]| == c.partSize)
    && (s.main.Filling? ==> s.main.n <= c.partSize)
    && (s.main.SinglePut? ==> !c.doomed && s.rest == [] && s.main.n <= c.partSize)
    && (s.main.Creating? ==> s.main.n == c.partSize)
    && (s.main.Sending? ==>
        && 0 < s.main.n <= c.partSize
        && (s.main.end.More? ==> s.main.n == c.partSize)
        && (s.main.end.Eof? ==> !c.doomed && s.rest == [])
        && (s.main.end.Failed? ==> c.doomed))
    && (s.main.Closed() && s.workers != [] && !s.flags.produceFailed ==> !c.doomed && Concat(s.log.sent) == c.body)
  }

  ghost predicate Carries(s: State, j: Job) {
    && 1 <= j.num <= |s.log.sent| && j.n == |s.log.sent[j.num - 1]|
    && j.buf in s.mem.bytes && j.n <= |s.mem.bytes[j.buf]|
    && s.mem.bytes[j.buf][..j.n] == s.log.sent[j.num - 1]
  }

  /** The store has part `num`, with the bytes that were sent under it. */
  ghost predicate HasPart(s: State, num: nat) {
    1 <= num <= |s.log.sent| && num in s.s3.stored && s.s3.stored[num] == s.log.sent[num - 1]
  }

  ghost predicate WorkerRight(s: State, w: Worker) {
    match w
    case Uploading(j) => Carries(s, j)
    case Returning(j, ok) => Carries(s, j) && (ok ==> HasPart(s, j.num))
    case Recording(num, n) => HasPart(s, num) && n == |s.log.sent[num - 1]|
    case _ => true
  }

  /** Queued and uploading parts still carry the bytes they were sent with, and
      so does everything the store has. */
  ghost predicate Faithful(s: State) {
    && (forall i :: 0 <= i < |s.queue| ==> Carries(s, s.queue[i]))
    && (forall i :: 0 <= i < |s.workers| ==> WorkerRight(s, s.workers[i]))
    && (forall k :: k in s.s3.stored ==> 1 <= k <= |s.log.sent| && s.s3.stored[k] == s.log.sent[k - 1])
    && (forall i :: 0 <= i < |s.log.parts| ==> HasPart(s, s.log.parts[i]))
    && s.log.total == SizeOf(s.log.parts, s.log.sent)
  }

  /** The bytes of the listed parts together. */
  function SizeOf(nums: seq<nat>, sent: seq<seq<byte>>): nat {
    if nums == [] then 0
    else SizeOf(nums[..|nums| - 1], sent)
         + (var k := nums[|nums| - 1]; if 1 <= k <= |sent| then |sent[k - 1]| else 0)
  }

  /** No wrong object is ever visible, not even for a moment. */
  ghost predicate Truthful(c: Params, s: State) {
    && (s.s3.visible.Some? ==> s.s3.visible.value == c.body && !c.doomed && !s.flags.produceFailed && !s.flags.partFailed)
    && (s.main.Finished? && s.main.outcome.Success? ==> s.s3.visible == Some(c.body) && s.main.outcome.total == |c.body|)
    && (s.s3.visible.Some? ==> s.s3.asked || (s.workers == [] && s.main.Finished?))
  }

  ghost predicate Inv(c: Params, s: State) {
    c.Valid() && Owned(c, s) && Numbered(s) && Shape(c, s) && Staffed(s) && Accounted(c, s) && Faithful(s) && Truthful(c, s)
  }
}
