/** The handler's checked and capped reader under the concurrent upload: each of its
    reads is a read step of the protocol, so the protocol's results are results
    about files, limits and clients. */
module Pipeline {
  import opened Chunking
  import opened Bags
  import opened Prelude
  import opened Streaming
  import opened UploadProtocol
  import UploadProgress
  import UploadResults

  /** The upload reads from `r`, and is where `r` is. */
  ghost predicate Tracks(c: Params, s: State, r: CappedReader)
    reads r, r.src
  {
    && r.Valid() && !r.exceeded && Sliceable(r.max)
    && c.body == r.body && c.doomed == r.Doomed()
    && s.rest == r.body[r.n..] && s.hiccups == r.src.hiccups
  }

  /** And fills `buf`, which holds `n` bytes so far. */
  ghost predicate Fills(c: Params, s: State, r: CappedReader, buf: array<byte>, n: nat)
    reads r, r.src, buf
  {
    && Tracks(c, s, r)
    && s.main.Filling? && s.main.n == n < buf.Length == c.partSize
    && s.main.buf in s.mem.bytes && s.mem.bytes[s.main.buf] == buf[..]
  }

  /** How the upload takes a reader's error. */
  function EndOf(err: Option<ReadErr>): ReadEnd {
    match err
    case None => More
    case Some(EOF) => Eof
    case Some(_) => Failed
  }

  /** What a read step does, as far as the reader is concerned. */
  lemma ReadDoes(c: Params, s: State, a: Action)
    requires a.Read? && CanRead(c, s, a.data, a.scratch, a.end, a.patience)
    ensures Enabled(c, s, a)
    ensures var t := Next(c, s, a);
      && t.main == MainAfterRead(c, Filling(s.main.first, s.main.buf, s.main.n + |a.data|), a.end)
      && t.rest == s.rest[|a.data|..] && (a.end.More? ==> t.hiccups == a.patience)
      && s.main.buf in t.mem.bytes
      && t.mem.bytes[s.main.buf] == s.mem.bytes[s.main.buf][..s.main.n] + a.data + a.scratch
  {
  }

  /** A read of `m` bytes behind the first `n` of a buffer. */
  lemma ReadFits(c: Params, s: State, before: seq<byte>, after: seq<byte>, n: nat, m: nat, end: ReadEnd, patience: nat)
    requires s.main.Filling? && s.main.n == n && s.main.buf in s.mem.bytes && s.mem.bytes[s.main.buf] == before
    requires |before| == |after| == c.partSize && n < c.partSize && n + m <= c.partSize && after[..n] == before[..n]
    requires after[n..n + m] <= s.rest
    requires end.More? && m == 0 ==> patience < s.hiccups
    requires end.Eof? ==> !c.doomed && m == |s.rest|
    requires end.Failed? ==> c.doomed
    ensures CanRead(c, s, after[n..n + m], after[n + m..], end, patience)
    ensures after == before[..n] + after[n..n + m] + after[n + m..]
  {
    assert m == |s.rest| ==> after[n..n + m] == s.rest;
  }

  /** Every outcome of a read, the one past the limit included, is a read step. */
  method ReadStep(c: Params, ghost s: State, r: CappedReader, buf: array<byte>, n: nat)
    returns (m: nat, err: Option<ReadErr>, ghost a: Action, ghost t: State)
    requires Fills(c, s, r, buf, n)
    modifies r, r.src, buf
    ensures a.Read? && Enabled(c, s, a) && t == Next(c, s, a) && n + m <= buf.Length
    ensures t.main == MainAfterRead(c, Filling(s.main.first, s.main.buf, n + m), EndOf(err))
    ensures s.main.buf in t.mem.bytes && t.mem.bytes[s.main.buf] == buf[..]
    ensures err.None? ==> Tracks(c, t, r)
    ensures t.main.Filling? ==> Fills(c, t, r, buf, n + m)
    ensures err.None? ==> |t.rest| < |s.rest| || (|t.rest| == |s.rest| && t.hiccups < s.hiccups)
  {
    hide Enabled, Next, CanRead;
    ghost var before := buf[..];
    var panicked;
    m, err, panicked := r.Read(buf, n, buf.Length);
    a := Read(buf[n..n + m], buf[n + m..], EndOf(err), r.src.hiccups);
    assert buf[..n] == before[..n];
    assert buf[n..n + m] == buf[..][n..n + m] && buf[n + m..] == buf[..][n + m..];
    ReadFits(c, s, before, buf[..], n, m, EndOf(err), r.src.hiccups);
    ReadDoes(c, s, a);
    t := Next(c, s, a);
  }

  /** Meanwhile the part workers, the other uploads and a cancellation leave the
      reader and the buffer alone, and so does every step between two fills. */
  lemma OtherStepsKeepTrack(c: Params, s: State, a: Action, r: CappedReader)
    requires Tracks(c, s, r) && Enabled(c, s, a) && !a.Read?
    ensures Tracks(c, Next(c, s, a), r)
  {
    hide Tolerates, Acceptable, Sort, Held, Assembled, CappedReader.Valid;
  }

  lemma OtherStepsKeepFills(c: Params, s: State, a: Action, r: CappedReader, buf: array<byte>, n: nat)
    requires Fills(c, s, r, buf, n) && Enabled(c, s, a) && !a.Read?
    ensures Fills(c, Next(c, s, a), r, buf, n)
  {
    OtherStepsKeepTrack(c, s, a, r);
    hide Acceptable, Sort, Assembled, Tracks;
    assert s.main.buf in MainBufs(s.main) && MainBufs(s.main) <= Held(s);
  }

  /** `fill`, read by read, is a run of the upload that ends with its decision. */
  method FillRun(c: Params, ghost s: State, r: CappedReader, buf: array<byte>)
    returns (n: nat, err: Option<ReadErr>, ghost run: seq<Action>, ghost t: State)
    requires Fills(c, s, r, buf, 0)
    modifies r, r.src, buf
    ensures IsRun(c, s, run, t) && !t.main.Filling? && n <= buf.Length
    ensures t.main == MainAfterRead(c, Filling(s.main.first, s.main.buf, n), EndOf(err))
    ensures s.main.buf in t.mem.bytes && t.mem.bytes[s.main.buf] == buf[..]
    ensures err.None? ==> n == buf.Length && Tracks(c, t, r)
  {
    hide Enabled, Next, IsRun, Tracks;
    n, err, run, t := 0, None, [], s;
    StartRun(c, s);
    while n < buf.Length
      invariant err.None? && IsRun(c, s, run, t) && n <= buf.Length
      invariant if n < buf.Length then Fills(c, t, r, buf, n) && t.main.first == s.main.first && t.main.buf == s.main.buf
                else Tracks(c, t, r) && t.main == MainAfterRead(c, Filling(s.main.first, s.main.buf, n), More)
      invariant s.main.buf in t.mem.bytes && t.mem.bytes[s.main.buf] == buf[..]
      decreases |t.rest|, t.hiccups
    {
      ghost var u, a := t, GiveUp;
      var m;
      m, err, a, t := ReadStep(c, u, r, buf, n);
      RunSnoc(c, s, run, u, a);
      run := run + [a];
      n := n + m;
      if err.Some? {
        return;
      }
    }
  }

  lemma StartRun(c: Params, s: State)
    ensures IsRun(c, s, [], s)
  {
  }

  lemma {:induction false} RunSnoc(c: Params, s: State, run: seq<Action>, t: State, a: Action)
    requires IsRun(c, s, run, t) && Enabled(c, t, a)
    ensures IsRun(c, s, run + [a], Next(c, t, a))
    decreases |run|
  {
    hide Enabled, Next;
    if run == [] {
      assert [a][1..] == [];
    } else {
      RunSnoc(c, Next(c, s, run[0]), run[1..], t, a);
      assert (run + [a])[1..] == run[1..] + [a];
    }
  }

  // ---- files, limits and clients -----------------------------------------

  /** The upload of a file of these bytes, under this limit, from a client whose
      reader ends like this. ReadStep is the reason. */
  predicate Uploads(c: Params, file: seq<byte>, max: int, fate: ReadErr) {
    Sliceable(max) && c.body == file && (c.doomed <==> |file| > max || fate != EOF)
  }

  /** End to end over check, cap and concurrent store, in every run: what becomes
      visible is the file, byte for byte, and only if it keeps to its limit and came
      to its end; one byte more, or a client that hangs up, leaves nothing visible
      and a failure. Without faults every run that ends stores a file that keeps to
      its limit. */
  lemma FilesAreStoredWhole(c: Params, s: State, run: seq<Action>, t: State, file: seq<byte>, max: int, fate: ReadErr)
    requires c.Valid() && Uploads(c, file, max, fate) && Start(c, s) && IsRun(c, s, run, t)
    ensures t.s3.visible.Some? ==> t.s3.visible.value == file && |file| <= max && fate == EOF
    ensures |file| > max || fate != EOF ==>
      t.s3.visible == None && (t.main.Finished? ==> t.main.outcome == Failure)
    ensures t.main.Finished? && t.main.outcome.Success? ==>
      t.s3.visible == Some(file) && t.main.outcome.total == |file| <= max && fate == EOF
    ensures |file| <= max && fate == EOF && !s.flags.cancelled && t.main.Finished?
            && (forall a :: a in run ==> UploadProgress.Faultless(a)) ==>
      t.main.outcome == Success(|file|) && t.s3.visible == Some(file)
  {
    hide IsRun, Start;
    UploadResults.UploadStoresTheBody(c, s, run, t);
    if |file| <= max && fate == EOF && !s.flags.cancelled && t.main.Finished?
       && forall a :: a in run ==> UploadProgress.Faultless(a) {
      UploadProgress.FaultlessUploadsSucceed(c, s, run, t);
    }
  }

  /** A reader fresh from the check is where its upload starts. */
  lemma CheckedReaderIsTracked(c: Params, s: State, r: CappedReader)
    requires r.Valid() && r.n == 0 && !r.exceeded && Sliceable(r.max)
    requires Start(c, s) && s.hiccups == r.src.hiccups && Uploads(c, r.body, r.max, r.src.fate)
    ensures Tracks(c, s, r)
  {
    hide Owned;
  }
}
