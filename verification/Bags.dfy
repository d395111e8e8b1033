/** Sums over a sequence, of multisets and of numbers, and the numbers 1..k. */
module Bags {

  /** The union, with multiplicity, of `f` over the elements of `s`. */
  function Bag<T, U>(s: seq<T>, f: T -> multiset<U>): multiset<U> {
    if s == [] then multiset{} else f(s[0]) + Bag(s[1..], f)
  }

  lemma {:induction false} BagSnoc<T, U>(s: seq<T>, x: T, f: T -> multiset<U>)
    ensures Bag(s + [x], f) == Bag(s, f) + f(x)
  {
    if s != [] {
      assert (s + [x])[1..] == s[1..] + [x];
      BagSnoc(s[1..], x, f);
    } else {
      assert (s + [x])[1..] == [];
    }
  }

  lemma {:induction false} BagUpdate<T, U>(s: seq<T>, i: nat, x: T, f: T -> multiset<U>)
    requires i < |s|
    ensures Bag(s[i := x], f) + f(s[i]) == Bag(s, f) + f(x)
  {
    var t := s[i := x];
    if i == 0 {
      assert t[1..] == s[1..];
    } else {
      assert t[1..] == s[1..][i - 1 := x] && t[0] == s[0] && s[1..][i - 1] == s[i];
      BagUpdate(s[1..], i - 1, x, f);
      var first, before, after := f(s[0]), Bag(s[1..], f), Bag(t[1..], f);
      assert Bag(t, f) == first + after && Bag(s, f) == first + before;
      assert first + after + f(s[i]) == first + (after + f(s[i]));
      assert first + before + f(x) == first + (before + f(x));
    }
  }

  lemma {:induction false} BagMember<T, U>(s: seq<T>, i: nat, f: T -> multiset<U>)
    requires i < |s|
    ensures f(s[i]) <= Bag(s, f)
  {
    if i > 0 {
      assert s[1..][i - 1] == s[i];
      BagMember(s[1..], i - 1, f);
    }
  }

  lemma {:induction false} BagSize<T, U>(s: seq<T>, f: T -> multiset<U>)
    requires forall i :: 0 <= i < |s| ==> |f(s[i])| <= 1
    ensures |Bag(s, f)| <= |s|
  {
    if s != [] {
      assert forall i :: 0 <= i < |s[1..]| ==> s[1..][i] == s[i + 1];
      BagSize(s[1..], f);
    }
  }

  lemma {:induction false} BagEmpty<T, U>(s: seq<T>, f: T -> multiset<U>)
    requires forall i :: 0 <= i < |s| ==> f(s[i]) == multiset{}
    ensures Bag(s, f) == multiset{}
  {
    if s != [] {
      assert forall i :: 0 <= i < |s[1..]| ==> s[1..][i] == s[i + 1];
      BagEmpty(s[1..], f);
    }
  }

  /** The sum of `f` over the elements of `s`. */
  function Total<T>(s: seq<T>, f: T -> nat): nat {
    if s == [] then 0 else f(s[0]) + Total(s[1..], f)
  }

  lemma {:induction false} TotalUpdate<T>(s: seq<T>, i: nat, x: T, f: T -> nat)
    requires i < |s|
    ensures Total(s[i := x], f) + f(s[i]) == Total(s, f) + f(x)
  {
    if i == 0 {
      assert s[i := x][1..] == s[1..];
    } else {
      assert s[i := x][1..] == s[1..][i - 1 := x];
      TotalUpdate(s[1..], i - 1, x, f);
    }
  }

  lemma {:induction false} TotalSnoc<T>(s: seq<T>, x: T, f: T -> nat)
    ensures Total(s + [x], f) == Total(s, f) + f(x)
  {
    if s != [] {
      assert (s + [x])[1..] == s[1..] + [x];
      TotalSnoc(s[1..], x, f);
    } else {
      assert (s + [x])[1..] == [];
    }
  }

  lemma {:induction false} TotalScales<T>(s: seq<T>, f: T -> nat, g: T -> nat, k: int)
    requires forall i :: 0 <= i < |s| ==> f(s[i]) <= k * g(s[i])
    ensures Total(s, f) <= k * Total(s, g)
  {
    if s != [] {
      var rest := s[1..];
      forall i | 0 <= i < |rest| ensures f(rest[i]) <= k * g(rest[i]) {
        assert rest[i] == s[i + 1];
      }
      TotalScales(rest, f, g, k);
      AddUp(k, f(s[0]), Total(rest, f), g(s[0]), Total(rest, g));
    }
  }

  lemma AddUp(k: int, a: int, b: int, x: int, y: int)
    requires a <= k * x && b <= k * y
    ensures a + b <= k * (x + y)
  {
  }

  function UpTo(k: nat): (s: set<nat>)
    ensures forall i :: i in s <==> 1 <= i <= k
  {
    if k == 0 then {} else UpTo(k - 1) + {k}
  }

  lemma {:induction false} UpToSize(k: nat)
    ensures |UpTo(k)| == k
  {
    if k > 0 {
      UpToSize(k - 1);
    }
  }

  ghost predicate Ascending(s: seq<nat>) {
    forall i, j :: 0 <= i < j < |s| ==> s[i] < s[j]
  }

  /** Strictly ascending numbers that are exactly 1..k can only be [1, ..., k]. */
  lemma AscendingIsIota(s: seq<nat>, k: nat)
    requires multiset(s) == multiset(UpTo(k)) && Ascending(s)
    ensures |s| == k && forall i :: 0 <= i < k ==> s[i] == i + 1
  {
    UpToSize(k);
    assert |multiset(s)| == |s|;
    assert forall x :: x in s <==> x in multiset(s);
    forall i | 0 <= i < k ensures s[i] == i + 1 {
      AtLeast(s, i);
      AtMost(s, k, i);
    }
  }

  lemma {:induction false} AtLeast(s: seq<nat>, i: nat)
    requires Ascending(s) && i < |s| && forall x :: x in s ==> x >= 1
    ensures s[i] >= i + 1
  {
    assert s[i] in s;
    if i > 0 {
      AtLeast(s, i - 1);
    }
  }

  lemma {:induction false} AtMost(s: seq<nat>, k: nat, i: nat)
    requires Ascending(s) && i < |s| == k && forall x :: x in s ==> x <= k
    ensures s[i] <= i + 1
    decreases |s| - i
  {
    assert s[i] in s;
    if i < |s| - 1 {
      AtMost(s, k, i + 1);
    }
  }

  /** slices.SortFunc on part numbers. */
  function Insert(x: nat, s: seq<nat>): seq<nat> {
    if s == [] || x <= s[0] then [x] + s else [s[0]] + Insert(x, s[1..])
  }

  function Sort(s: seq<nat>): seq<nat> {
    if s == [] then [] else Insert(s[0], Sort(s[1..]))
  }

  ghost predicate Sorted(s: seq<nat>) {
    forall i, j :: 0 <= i < j < |s| ==> s[i] <= s[j]
  }

  lemma ConsSorted(x: nat, s: seq<nat>)
    requires Sorted(s) && forall y :: y in s ==> x <= y
    ensures Sorted([x] + s)
  {
    var t := [x] + s;
    forall i, j | 0 <= i < j < |t| ensures t[i] <= t[j] {
      assert t[j] == s[j - 1] && t[j] in s;
    }
  }

  lemma {:induction false} InsertAdds(x: nat, s: seq<nat>)
    ensures multiset(Insert(x, s)) == multiset(s) + multiset{x}
  {
    if s != [] {
      assert s == [s[0]] + s[1..];
      if x > s[0] {
        InsertAdds(x, s[1..]);
      }
    }
  }

  lemma {:induction false} InsertKeeps(x: nat, s: seq<nat>)
    requires Sorted(s)
    ensures Sorted(Insert(x, s)) && multiset(Insert(x, s)) == multiset(s) + multiset{x}
  {
    InsertAdds(x, s);
    if s != [] && x > s[0] {
      hide Insert;
      var rest := Insert(x, s[1..]);
      InsertKeeps(x, s[1..]);
      forall y | y in rest ensures s[0] <= y {
        assert y in multiset(rest);
        assert y in multiset(s[1..]) || y == x;
      }
      ConsSorted(s[0], rest);
      InsertCons(x, s);
    }
  }

  lemma InsertCons(x: nat, s: seq<nat>)
    requires s != [] && x > s[0]
    ensures Insert(x, s) == [s[0]] + Insert(x, s[1..])
  {
  }

  lemma {:induction false} SortSorts(s: seq<nat>)
    ensures Sorted(Sort(s)) && multiset(Sort(s)) == multiset(s)
  {
    if s != [] {
      assert s == [s[0]] + s[1..];
      SortSorts(s[1..]);
      InsertKeeps(s[0], Sort(s[1..]));
    }
  }

  lemma CountedTwice(s: seq<nat>, i: nat, j: nat)
    requires i < j < |s| && s[i] == s[j]
    ensures multiset(s)[s[i]] >= 2
  {
    var front, back := s[..j], s[j..];
    assert s == front + back;
    assert front[i] in multiset(front) && back[0] in multiset(back);
  }

  /** Sorting a list that holds each of 1..k once gives [1, ..., k]. */
  lemma SortGivesIota(s: seq<nat>, k: nat)
    requires multiset(s) == multiset(UpTo(k))
    ensures |Sort(s)| == k && forall i :: 0 <= i < k ==> Sort(s)[i] == i + 1
  {
    SortSorts(s);
    var t := Sort(s);
    forall i, j | 0 <= i < j < |t| ensures t[i] < t[j] {
      if t[i] == t[j] {
        CountedTwice(t, i, j);
      }
    }
    AscendingIsIota(t, k);
  }
}
