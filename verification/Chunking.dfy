/** Cutting a body into parts, and putting the parts back together. */
module Chunking {

  newtype byte = x: int | 0 <= x < 256

  /** The bytes of `parts` laid end to end. */
  function Concat(parts: seq<seq<byte>>): seq<byte> {
    if parts == [] then [] else Concat(parts[..|parts| - 1]) + parts[|parts| - 1]
  }

  /** `body` cut every `size` bytes: what the upload is meant to send. */
  function Blocks(body: seq<byte>, size: nat): seq<seq<byte>>
    requires size > 0
  {
    if body == [] then []
    else if |body| <= size then [body]
    else [body[..size]] + Blocks(body[size..], size)
  }

  /** No part is empty, and only the last one may be short. */
  ghost predicate WellCut(parts: seq<seq<byte>>, size: nat) {
    forall i :: 0 <= i < |parts| ==>
      0 < |parts[i]| <= size && (i < |parts| - 1 ==> |parts[i]| == size)
  }

  lemma ConcatSnoc(parts: seq<seq<byte>>, last: seq<byte>)
    ensures Concat(parts + [last]) == Concat(parts) + last
  {
    assert (parts + [last])[..|parts|] == parts;
  }

  lemma {:induction false} ConcatCons(first: seq<byte>, parts: seq<seq<byte>>)
    ensures Concat([first] + parts) == first + Concat(parts)
  {
    if parts == [] {
      ConcatSnoc([], first);
      assert [first] + parts == [] + [first];
    } else {
      var front, last := parts[..|parts| - 1], parts[|parts| - 1];
      ConcatCons(first, front);
      assert parts == front + [last];
      assert [first] + parts == ([first] + front) + [last];
      ConcatSnoc([first] + front, last);
      ConcatSnoc(front, last);
    }
  }

  /** Cutting loses nothing, and every block but the last is full. */
  lemma {:induction false} BlocksCutTheBody(body: seq<byte>, size: nat)
    requires size > 0
    ensures Concat(Blocks(body, size)) == body
    ensures WellCut(Blocks(body, size), size)
    decreases |body|
  {
    if |body| > size {
      BlocksCutTheBody(body[size..], size);
      ConcatCons(body[..size], Blocks(body[size..], size));
      assert body[..size] + body[size..] == body;
      assert Blocks(body[size..], size) != [];
    } else if body != [] {
      ConcatSnoc([], body);
      assert [] + [body] == [body];
    }
  }

  /** There is only one way to cut a body, so any well cut list of parts that
      concatenates to it is `Blocks`. */
  lemma {:induction false} CutIsUnique(parts: seq<seq<byte>>, size: nat)
    requires size > 0 && WellCut(parts, size)
    ensures Blocks(Concat(parts), size) == parts
    decreases |parts|
  {
    if parts != [] {
      var first, rest := parts[0], parts[1..];
      assert forall i :: 0 <= i < |rest| ==> rest[i] == parts[i + 1];
      CutIsUnique(rest, size);
      assert parts == [first] + rest;
      ConcatCons(first, rest);
      if rest != [] {
        NonEmptyConcat(rest, size);
        assert Concat(parts)[..size] == first;
        assert Concat(parts)[size..] == Concat(rest);
      } else {
        assert Concat(parts) == first;
      }
    }
  }

  lemma {:induction false} NonEmptyConcat(parts: seq<seq<byte>>, size: nat)
    requires parts != [] && WellCut(parts, size)
    ensures Concat(parts) != []
  {
    var front, last := parts[..|parts| - 1], parts[|parts| - 1];
    assert |last| > 0;
    assert Concat(parts) == Concat(front) + last;
  }

  /** Adjacent slices join up, and a slice of a slice is a slice. */
  lemma Slices(s: seq<byte>, a: nat, b: nat, c: nat)
    requires a <= b <= c <= |s|
    ensures s[a..b] + s[b..c] == s[a..c]
    ensures s[a..][..c - a] == s[a..c]
    ensures s[a..][b - a..] == s[b..]
  {
  }
}
