/** The size limits of the configuration, none of which Validate checks: the cap
    per kind of media and the ceiling on a whole request, and what becomes of a file
    that arrives under both. */
module Limits {
  import opened Chunking
  import opened Int64
  import opened Prelude
  import opened Store
  import opened Streaming

  const FRAMING_SLACK: int := 0x10_0000

  datatype Kind = Document | Image | Video

  /** MAX_DOC_BYTES, MAX_IMAGE_BYTES, MAX_VIDEO_BYTES and MAX_TEXT_BYTES. */
  datatype Config = Config(doc: int, image: int, video: int, text: int) {
    predicate Valid() { IsInt64(doc) && IsInt64(image) && IsInt64(video) && IsInt64(text) }
  }

  function MaxForKind(c: Config, k: Kind): int {
    match k
    case Document => c.doc
    case Image => c.image
    case Video => c.video
  }

  ghost predicate IsLargest(c: Config, max: int) {
    (exists k :: MaxForKind(c, k) == max) && forall k :: MaxForKind(c, k) <= max
  }

  function RequestLimit(max: int, text: int): int {
    Wrap64(Wrap64(max + text) + FRAMING_SLACK)
  }

  /** maxRequestBytes. */
  method MaxRequestBytes(c: Config) returns (n: int)
    ensures forall max :: IsLargest(c, max) ==> n == RequestLimit(max, c.text)
    ensures
      var largest := if c.doc >= c.image && c.doc >= c.video then c.doc else if c.image >= c.video then c.image else c.video;
      -0x8000_0000_0000_0000 <= largest + c.text + 1_048_576 <= 0x7FFF_FFFF_FFFF_FFFF ==> n == largest + c.text + 1_048_576
    ensures n == Ceiling(c)
  {
    var max := c.video;
    var others := [c.doc, c.image];
    for i := 0 to |others|
      invariant c.video <= max && forall j :: 0 <= j < i ==> others[j] <= max
      invariant max == c.video || exists j :: 0 <= j < i && others[j] == max
    {
      if others[i] > max {
        max := others[i];
      }
    }
    assert MaxForKind(c, Document) == others[0] && MaxForKind(c, Image) == others[1] && MaxForKind(c, Video) == c.video;
    n := Wrap64(Wrap64(max + c.text) + FRAMING_SLACK);
    RequestLimitIsExact(max, c.text);
  }

  function LargestLimit(c: Config): int {
    if c.doc >= c.image && c.doc >= c.video then c.doc else if c.image >= c.video then c.image else c.video
  }

  function Ceiling(c: Config): int {
    RequestLimit(LargestLimit(c), c.text)
  }

  /** The ceiling is the intended sum exactly when that fits in an int64. */
  lemma RequestLimitIsExact(max: int, text: int)
    ensures RequestLimit(max, text) == max + text + 1_048_576 <==>
      -0x8000_0000_0000_0000 <= max + text + 1_048_576 <= 0x7FFF_FFFF_FFFF_FFFF
  {
    WrapSum(FRAMING_SLACK, max + text);
    WrapFits(max + text + FRAMING_SLACK);
  }

  // ---- a file under the ceiling ------------------------------------------

  /** A form with a file in it: the bytes before the file's content, the content,
      and the bytes of the delimiter that show its end. More may follow. */
  datatype Form = Form(lead: nat, file: seq<byte>, close: nat)

  /** http.MaxBytesReader takes a negative limit for zero. */
  function Budget(limit: int): nat { if limit < 0 then 0 else limit }

  const CUT_OFF := Broken(413)

  /** What arrives of the file before the ceiling. */
  function Arriving(limit: int, f: Form): seq<byte> {
    f.file[..Min(|f.file|, if f.lead <= Budget(limit) then Budget(limit) - f.lead else 0)]
  }

  /** And how reading it ends: the ceiling only makes itself felt past it. */
  function FateOf(limit: int, f: Form): ReadErr {
    if f.lead + |f.file| + f.close <= Budget(limit) then EOF else CUT_OFF
  }

  /** The handler gets to the file, and enough of it arrives to pass its check. */
  predicate HeadArrives(limit: int, f: Form, verify: seq<byte> -> bool) {
    f.lead <= Budget(limit) && Passes(Some(Rule(verify, 0)), Arriving(limit, f), FateOf(limit, f))
  }

  /** CreateJob as far as one file: the ceiling, then attachFile on what arrives. No
      result means that the form ended before the file. */
  method ReceiveFile(c: Config, k: Kind, f: Form, verify: seq<byte> -> bool, sniffBuf: array<byte>, pool: BufferPool,
                     slot: bool, mayEnd: bool)
    returns (res: Option<Attachment>)
    requires c.Valid() && sniffBuf.Length == SNIFF_LEN && pool.Valid() && sniffBuf !in pool.free
    modifies sniffBuf, pool, pool.free
    ensures res.None? <==> f.lead > Budget(Ceiling(c))
    ensures res == Some(Crashed) <==> slot && HeadArrives(Ceiling(c), f, verify) && !Sliceable(MaxForKind(c, k))
    ensures res.Some? && res.value.Attached? ==>
      && res.value.stored == f.file && res.value.size == |f.file| && f.lead + |f.file| + f.close <= Budget(Ceiling(c))
      && (k == Document ==> |f.file| <= c.doc)
      && (k == Image ==> |f.file| <= c.image)
      && (k == Video ==> |f.file| <= c.video)
    ensures f.lead + |f.file| + f.close <= Ceiling(c) && !mayEnd ==>
      var max := match k case Document => c.doc case Image => c.image case Video => c.video;
      res == Some(
        if !verify(if |f.file| <= 64 then f.file else f.file[..64]) then NotValid
        else if !slot then Shed
        else if max < -1 || max == 0x7FFF_FFFF_FFFF_FFFF then Crashed
        else if |f.file| <= max then Attached(f.file, |f.file|)
        else TooLong)
  {
    var limit := MaxRequestBytes(c);
    if f.lead > Budget(limit) {
      return None;
    }
    var hiccups: nat := *;
    var src := new Source(Arriving(limit, f), FateOf(limit, f), hiccups);
    AllArrives(c, f, verify, MaxForKind(c, k));
    var attachment := AttachFile(src, Some(Rule(verify, MaxForKind(c, k))), sniffBuf, pool, slot, mayEnd);
    res := Some(attachment);
  }

  /** A form below the ceiling arrives whole. */
  lemma AllArrives(c: Config, f: Form, verify: seq<byte> -> bool, max: int)
    requires f.lead <= Budget(Ceiling(c))
    ensures f.lead + |f.file| + f.close <= Ceiling(c) ==>
      && Arriving(Ceiling(c), f) == f.file && FateOf(Ceiling(c), f) == EOF
      && (Passes(Some(Rule(verify, max)), f.file, EOF) <==> verify(if |f.file| <= 64 then f.file else f.file[..64]))
  {
    hide Ceiling;
    assert f.file[..|f.file|] == f.file;
  }

  /** What the check sees of a file. */
  function Head(f: Form): seq<byte> {
    if |f.file| >= SNIFF_LEN then f.file[..SNIFF_LEN] else f.file
  }

  /** How much of the form has to arrive for that. */
  function Need(f: Form): nat {
    f.lead + |Head(f)| + if |f.file| >= SNIFF_LEN then 0 else f.close
  }

  /** Which files get as far as their check's approval: a long one when its head
      comes in below the ceiling, whatever the length of the file and of the form;
      a shorter one when all of it does, and its delimiter. */
  lemma HeadArrivesIff(limit: int, f: Form, verify: seq<byte> -> bool)
    ensures HeadArrives(limit, f, verify) <==>
      if |f.file| >= 64 then f.lead + 64 <= (if limit < 0 then 0 else limit) && verify(f.file[..64])
      else f.lead + |f.file| + f.close <= (if limit < 0 then 0 else limit) && verify(f.file)
    ensures HeadArrives(limit, f, verify) <==> Need(f) <= Budget(limit) && verify(Head(f))
  {
    var come := Arriving(limit, f);
    if |come| >= SNIFF_LEN {
      assert come[..SNIFF_LEN] == f.file[..SNIFF_LEN];
    } else {
      assert come[..|come|] == come;
      assert |come| == |f.file| ==> come == f.file;
    }
  }

  // ---- which configurations crash ----------------------------------------

  /** By the contract of ReceiveFile this file crashes its request, given a slot. */
  predicate FileCrashes(c: Config, k: Kind, f: Form, verify: seq<byte> -> bool) {
    HeadArrives(Ceiling(c), f, verify) && !Sliceable(MaxForKind(c, k))
  }

  /** These bytes pass the check as a head, and fit below the ceiling: as all of a
      small file, with its delimiter, or as the sniffed bytes of any other. */
  predicate HeadFits(c: Config, head: seq<byte>, lead: nat, close: nat, verify: seq<byte> -> bool) {
    && |head| <= SNIFF_LEN && verify(head)
    && lead + |head| + (if |head| < SNIFF_LEN then close else 0) <= Budget(Ceiling(c))
  }

  /** Some file of this kind crashes its request exactly when the kind's limit is
      below -1 or the largest int64, and a head that passes fits below the ceiling. */
  lemma ConfigsThatCrash(c: Config, k: Kind, lead: nat, close: nat, verify: seq<byte> -> bool)
    requires c.Valid()
    ensures (exists file :: FileCrashes(c, k, Form(lead, file, close), verify))
      <==> (MaxForKind(c, k) < -1 || MaxForKind(c, k) == MAX_INT64)
           && exists head :: HeadFits(c, head, lead, close, verify)
  {
    var limit := Ceiling(c);
    hide HeadArrives, Ceiling;
    if file :| FileCrashes(c, k, Form(lead, file, close), verify) {
      HeadArrivesIff(limit, Form(lead, file, close), verify);
      assert HeadFits(c, Head(Form(lead, file, close)), lead, close, verify);
    }
    if !Sliceable(MaxForKind(c, k)) {
      if head :| HeadFits(c, head, lead, close, verify) {
        HeadArrivesIff(limit, Form(lead, head, close), verify);
        assert |head| == SNIFF_LEN ==> head[..SNIFF_LEN] == head;
        assert FileCrashes(c, k, Form(lead, head, close), verify);
      }
    }
  }

  /** A document limit of -2 beside ordinary ones: the run that crashes, for a file
      of any length whose head passes, in a form of any length. */
  method NegativeLimitCrashes(f: Form, verify: seq<byte> -> bool, mayEnd: bool) returns (res: Option<Attachment>)
    requires verify(Head(f)) && Need(f) <= 100_000_000
    ensures res == Some(Crashed)
  {
    var c := Config(-2, 10_000_000, 100_000_000, 1_000_000);
    RequestLimitIsExact(100_000_000, 1_000_000);
    HeadArrivesIff(Ceiling(c), f, verify);
    var sniffBuf := new byte[SNIFF_LEN];
    var pool := new BufferPool(8_388_608);
    res := ReceiveFile(c, Document, f, verify, sniffBuf, pool, true, mayEnd);
  }

  /** A kind limit of the largest int64 makes the ceiling wrap. `need` bytes come in
      below it exactly with a text limit so negative, or so large, that the sum wraps
      to at least that many. */
  lemma LargestLimitShutsTheDoor(c: Config, need: nat)
    requires c.Valid() && LargestLimit(c) == MAX_INT64 && need > 0
    ensures need <= Budget(Ceiling(c)) <==>
      || (c.text <= -FRAMING_SLACK && need <= MAX_INT64 + c.text + FRAMING_SLACK)
      || need <= c.text + FRAMING_SLACK - 1 - HALF
  {
    var sum := MAX_INT64 + c.text + FRAMING_SLACK;
    WrapSum(FRAMING_SLACK, MAX_INT64 + c.text);
    if sum <= MAX_INT64 {
      WrapFits(sum);
    } else {
      WrapOver(sum);
    }
  }

  /** So which files of such a kind crash. (A form starts with a boundary.) With the
      text limit in the usual range none does: no file is ever reached. */
  lemma UnlimitedKindCrashes(c: Config, k: Kind, f: Form, verify: seq<byte> -> bool)
    requires c.Valid() && MaxForKind(c, k) == MAX_INT64 && f.lead > 0
    ensures FileCrashes(c, k, f, verify) <==>
      && verify(Head(f))
      && (|| (c.text <= -FRAMING_SLACK && Need(f) <= MAX_INT64 + c.text + FRAMING_SLACK)
          || Need(f) <= c.text + FRAMING_SLACK - 1 - HALF)
    ensures -FRAMING_SLACK < c.text <= HALF - FRAMING_SLACK ==> !FileCrashes(c, k, f, verify)
  {
    assert LargestLimit(c) == MAX_INT64;
    LargestLimitShutsTheDoor(c, Need(f));
    hide Ceiling, HeadArrives;
    HeadArrivesIff(Ceiling(c), f, verify);
  }
}
