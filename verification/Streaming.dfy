/** The reader the object store pulls from: the client's file part, the sniffed
    head replayed in front of it, and the per-kind size cap around both. */
module Streaming {
  import opened Chunking
  import opened Int64
  import opened Prelude

  /** What a reader may return as its error. `UnexpectedEOF` is what the
      multipart reader reports when a client hangs up mid-body. */
  datatype ReadErr = EOF | UnexpectedEOF | TooLarge | Broken(code: int)

  datatype Result<+T> = Ok(value: T) | UnsupportedMedia | InvalidInput(cause: ReadErr)

  /** Bytes kept from the head of a file for the magic-byte check. */
  const SNIFF_LEN: nat := 64

  /** Any client: it hands out the bytes of `rest` in pieces of its own
      choosing, then reports `fate` for ever. The error may come with the last
      bytes or after them. A read may return nothing, but only finitely often in
      a row, and it may scribble on the part of the buffer it did not fill. */
  class Source {
    var rest: seq<byte>
    var hiccups: nat
    const fate: ReadErr

    constructor (body: seq<byte>, fate: ReadErr, hiccups: nat)
      ensures rest == body && this.fate == fate && this.hiccups == hiccups
    {
      this.rest, this.fate, this.hiccups := body, fate, hiccups;
    }

    method Read(p: array<byte>, lo: nat, hi: nat) returns (n: nat, err: Option<ReadErr>)
      requires lo < hi <= p.Length
      modifies this, p
      ensures n <= hi - lo && n <= |old(rest)|
      ensures p[lo..lo + n] == old(rest)[..n] && rest == old(rest)[n..]
      ensures forall k :: 0 <= k < lo || hi <= k < p.Length ==> p[k] == old(p[k])
      ensures err.Some? ==> rest == [] && err.value == fate
      ensures n == 0 && err.None? ==> hiccups < old(hiccups)
    {
      n :| 0 <= n <= hi - lo && n <= |rest|;
      var scratch: byte := *;
      forall k | lo <= k < hi {
        p[k] := if k < lo + n then rest[k - lo] else scratch;
      }
      rest := rest[n..];
      var withError: bool := *;
      if rest == [] && (withError || (n == 0 && hiccups == 0)) {
        err := Some(fate);
      } else {
        err := None;
        if n > 0 {
          hiccups := *;
        } else if hiccups > 0 {
          hiccups := hiccups - 1;
        } else {
          // Out of patience with bytes left: hand over one of them.
          n, p[lo], rest, hiccups := 1, rest[0], rest[1..], *;
        }
      }
    }
  }

  /** io.ReadFull: errors that arrive together with the last wanted byte are
      dropped, and a short read at the end of the stream is UnexpectedEOF. */
  method ReadFull(src: Source, buf: array<byte>) returns (n: nat, err: Option<ReadErr>)
    requires buf.Length > 0
    modifies src, buf
    ensures n <= buf.Length && n <= |old(src.rest)|
    ensures buf[..n] == old(src.rest)[..n] && src.rest == old(src.rest)[n..]
    ensures err.None? <==> n == buf.Length
    ensures err.Some? ==> src.rest == []
    ensures err.Some? ==> err.value == if n > 0 && src.fate == EOF then UnexpectedEOF else src.fate
  {
    n, err := 0, None;
    while n < buf.Length && err.None?
      invariant n <= buf.Length && n <= |old(src.rest)|
      invariant buf[..n] == old(src.rest)[..n] && src.rest == old(src.rest)[n..]
      invariant err.Some? ==> src.rest == [] && err.value == src.fate
      decreases |src.rest|, if err.None? then 1 + src.hiccups else 0
    {
      var m;
      m, err := src.Read(buf, n, buf.Length);
      Slices(old(src.rest), 0, n, n + m);
      Slices(old(src.rest), n, n + m, n + m);
      assert buf[..n + m] == buf[..n] + buf[n..n + m];
      n := n + m;
    }
    if n == buf.Length {
      err := None;
    } else if n > 0 && err.value == EOF {
      err := Some(UnexpectedEOF);
    }
  }

  /** cappedReader over io.MultiReader(bytes.NewReader(sniffed), r). */
  class CappedReader {
    const src: Source
    const max: int
    var replay: seq<byte>
    var n: nat
    var exceeded: bool
    /** Everything the client sends for this file. */
    ghost const body: seq<byte>

    ghost predicate Valid()
      reads this, src
    {
      && IsInt64(max) && n <= |body|
      && Pending() == body[n..]
      && (if exceeded then n > max else n == 0 || n <= max)
      && (!Sliceable(max) ==> n == 0 && !exceeded)
    }

    /** The bytes that have not been asked for yet. */
    ghost function Pending(): seq<byte>
      reads this, src
    {
      replay + src.rest
    }

    /** No reading pattern can turn this body into a stored object. */
    ghost predicate Doomed()
    {
      |body| > max || src.fate != EOF
    }

    constructor (src: Source, sniffed: seq<byte>, max: int)
      requires IsInt64(max)
      ensures Valid() && n == 0 && !exceeded
      ensures this.src == src && this.max == max && body == sniffed + src.rest
    {
      this.src, this.max, this.replay := src, max, sniffed;
      this.n, this.exceeded := 0, false;
      this.body := sniffed + src.rest;
    }

    /** MultiReader.Read: the replayed head first, never with an error. */
    method ReadInner(p: array<byte>, lo: nat, hi: nat) returns (m: nat, err: Option<ReadErr>)
      requires lo < hi <= p.Length
      modifies this`replay, src, p
      ensures m <= hi - lo && m <= |old(Pending())|
      ensures p[lo..lo + m] == old(Pending())[..m] && Pending() == old(Pending())[m..]
      ensures forall k :: 0 <= k < lo || hi <= k < p.Length ==> p[k] == old(p[k])
      ensures err.Some? ==> Pending() == [] && err.value == src.fate
      ensures m == 0 && err.None? ==> src.hiccups < old(src.hiccups)
    {
      if replay != [] {
        m, err := Min(hi - lo, |replay|), None;
        forall k | lo <= k < lo + m {
          p[k] := replay[k - lo];
        }
        replay := replay[m..];
      } else {
        m, err := src.Read(p, lo, hi);
      }
    }

    /** `panicked`: the slice expression is out of range, and the goroutine is
        gone. */
    method Read(p: array<byte>, lo: nat, hi: nat) returns (m: nat, err: Option<ReadErr>, panicked: bool)
      requires Valid() && lo < hi <= p.Length
      modifies this, src, p
      ensures Valid() && m <= hi - lo
      ensures panicked <==> !Sliceable(max)
      ensures panicked ==> m == 0 && err.None? && !exceeded
      ensures old(n) + m <= |body| && p[lo..lo + m] == body[old(n)..old(n) + m]
      ensures forall k :: 0 <= k < lo || hi <= k < p.Length ==> p[k] == old(p[k])
      ensures !exceeded ==> n == old(n) + m && (panicked || n <= max)
      ensures exceeded <==> err == Some(TooLarge) && |body| > max && n > max && !panicked
      ensures exceeded ==> m == 0
      ensures err.Some? && !exceeded && !panicked ==> n == |body| && err.value == src.fate
      ensures old(exceeded) ==> exceeded
      ensures err.None? && !panicked ==>
        |Pending()| < |old(Pending())| || (m == 0 && Pending() == old(Pending()) && src.hiccups < old(src.hiccups))
    {
      if exceeded {
        return 0, Some(TooLarge), false;
      }
      // One byte past the limit is what proves the body is too large.
      var room := Room(max, n);
      RoomAt(max, n);
      if room < 0 {
        return 0, None, true;
      }
      // With no room left, which only a limit of -1 brings about, nothing is read.
      var got, e := 0, None;
      if room > 0 {
        got, e := ReadInner(p, lo, lo + Min(hi - lo, room));
      }
      Slices(body, n, n + got, n + got);
      n := n + got;
      if n > max {
        exceeded := true;
        return 0, Some(TooLarge), false;
      }
      return got, e, false;
    }
  }

  /** The slice bound of cappedReader.Read as Go's int64 computes it. */
  function Room(max: int, n: int): int {
    Wrap64(Wrap64(max + 1) - n)
  }

  /** The limits cappedReader can work with. */
  predicate Sliceable(max: int) { -1 <= max < MAX_INT64 }

  lemma RoomAt(max: int, n: nat)
    requires IsInt64(max) && (n == 0 || n <= max)
    ensures Sliceable(max) ==> Room(max, n) == max + 1 - n >= 0
    ensures n == 0 && !Sliceable(max) ==> Room(max, n) < 0
  {
    WrapFits(max + 1);
    WrapFits(max + 1 - n);
    if max == MAX_INT64 {
      WrapOver(max + 1);
      WrapFits(-HALF);
    }
    hide Wrap64;
  }

  /** For every int64 limit: no read of a reader that has not exceeded it slices
      out of range exactly when the limit is at least -1 and below the largest
      int64, and then the bound is the intended one. */
  lemma RoomIsExact(max: int)
    requires IsInt64(max)
    ensures (forall n: nat :: n == 0 || n <= max ==> 0 <= Room(max, n)) <==> Sliceable(max)
    ensures (forall n: nat :: n == 0 || n <= max ==> Room(max, n) == max + 1 - n) <==> max < MAX_INT64
  {
    hide Room;
    RoomAt(max, 0);
    if max < 0 {
      NegativeRoom(max);
    }
    forall n: nat | n == 0 || n <= max ensures max < MAX_INT64 ==> Room(max, n) == max + 1 - n {
      if max >= 0 {
        RoomAt(max, n);
      }
    }
    forall n: nat | n == 0 || n <= max ensures Sliceable(max) ==> 0 <= Room(max, n) {
      RoomAt(max, n);
    }
  }

  lemma NegativeRoom(max: int)
    requires -HALF <= max < 0
    ensures Room(max, 0) == max + 1
  {
  }

  /** What the table of allowed media types holds for one of them. */
  datatype Rule = Rule(verify: seq<byte> -> bool, max: int)

  /** A type outside the table is refused before anything is read. Else checks the
      head of the file and hands back a reader that replays it. `buf` is a pooled
      sniff buffer: its old contents do not matter. */
  method ValidateFile(src: Source, rule: Option<Rule>, buf: array<byte>) returns (res: Result<CappedReader>)
    requires buf.Length == SNIFF_LEN && (rule.Some? ==> IsInt64(rule.value.max))
    modifies src, buf
    ensures rule.None? ==> res == UnsupportedMedia && unchanged(src)
    ensures rule.Some? ==>
      var body := old(src.rest);
      var head := body[..Min(SNIFF_LEN, |body|)];
      var cutOff := |body| < SNIFF_LEN && src.fate != EOF && src.fate != UnexpectedEOF;
      match res
      case Ok(r) =>
        && rule.value.verify(head) && !cutOff
        && fresh(r) && r.Valid() && r.src == src && r.max == rule.value.max && r.body == body
        && r.n == 0 && !r.exceeded
      case UnsupportedMedia => !rule.value.verify(head) && !cutOff
      case InvalidInput(cause) => cutOff && cause == src.fate
  {
    if rule.None? {
      return UnsupportedMedia;
    }
    var n, err := ReadFull(src, buf);
    if err.Some? && err.value != EOF && err.value != UnexpectedEOF {
      return InvalidInput(err.value);
    }
    var head := buf[..n];
    assert head == old(src.rest)[..Min(SNIFF_LEN, |old(src.rest)|)];
    if !rule.value.verify(head) {
      return UnsupportedMedia;
    }
    var r := new CappedReader(src, head, rule.value.max);
    return Ok(r);
  }

  /** How a fill of a buffer of `len` bytes that started at offset `start` of the
      body can end: full, at the genuine end of a body that fits, or with the
      failure of a body that no reading pattern can store. */
  ghost predicate FillEnds(r: CappedReader, start: nat, n: nat, len: nat, err: Option<ReadErr>)
    reads r, r.src
  {
    && r.Valid() && n <= len && start + n <= |r.body|
    && (!r.exceeded ==> r.n == start + n && r.n <= r.max)
    && (r.exceeded <==> err == Some(TooLarge) && r.n > r.max)
    && match err
       case None => n == len && !r.exceeded
       case Some(EOF) => !r.exceeded && r.n == |r.body| && !r.Doomed()
       case Some(e) => r.Doomed() && (r.exceeded || (r.n == |r.body| && e == r.src.fate))
  }

  lemma FullBuffer(r: CappedReader, start: nat, len: nat)
    requires r.Valid() && !r.exceeded && r.n == start + len && len > 0
    ensures FillEnds(r, start, len, len, None)
  {
  }

  /** Bytes read behind those already there continue them. */
  lemma Extended(buf: array<byte>, body: seq<byte>, start: nat, n: nat, m: nat)
    requires n + m <= buf.Length && start + n + m <= |body|
    requires buf[..n] == body[start..start + n] && buf[n..n + m] == body[start + n..start + n + m]
    ensures buf[..n + m] == body[start..start + n + m]
  {
    Slices(body, start, start + n, start + n + m);
    assert buf[..n + m] == buf[..n] + buf[n..n + m];
  }

  /** One read behind the `n` bytes a buffer already holds. */
  method ReadMore(r: CappedReader, buf: array<byte>, n: nat, ghost start: nat)
    returns (m: nat, err: Option<ReadErr>, panicked: bool)
    requires r.Valid() && !r.exceeded && n < buf.Length && r.n == start + n && buf[..n] == r.body[start..r.n]
    modifies r, r.src, buf
    ensures r.Valid() && (panicked <==> !Sliceable(r.max))
    ensures panicked ==> m == 0 && !r.exceeded && err.None?
    ensures err.Some? ==> FillEnds(r, start, n + m, buf.Length, err)
    ensures err.None? && !panicked ==> r.n == start + n + m && !r.exceeded
    ensures n + m <= buf.Length && start + n + m <= |r.body| && buf[..n + m] == r.body[start..start + n + m]
    ensures err.None? && !panicked ==>
      |r.Pending()| < |old(r.Pending())| || (m == 0 && r.Pending() == old(r.Pending()) && r.src.hiccups < old(r.src.hiccups))
  {
    ghost var done := buf[..n];
    m, err, panicked := r.Read(buf, n, buf.Length);
    assert buf[..n] == done;
    Extended(buf, r.body, start, n, m);
  }

  /** Reads until the buffer is full. Only a genuine end of stream is EOF; any
      other failure, UnexpectedEOF included, is passed on as a failure. */
  method Fill(r: CappedReader, buf: array<byte>) returns (n: nat, err: Option<ReadErr>, panicked: bool)
    requires r.Valid() && !r.exceeded && buf.Length > 0
    modifies r, r.src, buf
    ensures panicked <==> !Sliceable(r.max)
    ensures if panicked then n == 0 && r.Valid() else FillEnds(r, old(r.n), n, buf.Length, err)
    ensures old(r.n) + n <= |r.body| && n <= buf.Length && buf[..n] == r.body[old(r.n)..old(r.n) + n]
  {
    hide FillEnds, CappedReader.Doomed;
    n, err, panicked := 0, None, false;
    while n < buf.Length
      invariant r.Valid() && !r.exceeded && (n > 0 ==> Sliceable(r.max)) && err.None? && !panicked
      invariant n <= buf.Length && r.n == old(r.n) + n
      invariant buf[..n] == r.body[old(r.n)..old(r.n) + n]
      decreases |r.Pending()|, r.src.hiccups
    {
      var m;
      m, err, panicked := ReadMore(r, buf, n, old(r.n));
      n := n + m;
      if panicked || err.Some? {
        return;
      }
    }
    FullBuffer(r, old(r.n), n);
  }
}
