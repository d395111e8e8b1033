/** The mock processor's memory of past results: a map and a first-in first-out
    queue that bounds it. */
module Memo {
  import opened Prelude

  type JobId = string

  const CAP: nat := 10_000

  datatype Entry = Entry(id: JobId, summary: string)

  // ---- the specification: a window on the history of insertions ----------

  /** The last CAP entries. */
  function Window(ins: seq<Entry>): seq<Entry> {
    if |ins| > CAP then ins[|ins| - CAP..] else ins
  }

  predicate Has(es: seq<Entry>, id: JobId) {
    exists i :: 0 <= i < |es| && es[i].id == id
  }

  /** The calls of remember that took effect: those for an id outside the window
      of the insertions before it. */
  function Insertions(calls: seq<Entry>): (ins: seq<Entry>)
    ensures |ins| <= |calls|
  {
    if calls == [] then []
    else
      var ins, last := Insertions(calls[..|calls| - 1]), calls[|calls| - 1];
      if Has(Window(ins), last.id) then ins else ins + [last]
  }

  function Remembered(calls: seq<Entry>): seq<Entry> {
    Window(Insertions(calls))
  }

  predicate Recalls(calls: seq<Entry>, id: JobId, summary: string) {
    Entry(id, summary) in Remembered(calls)
  }

  ghost predicate DistinctIds(es: seq<Entry>) {
    forall i, j :: 0 <= i < j < |es| ==> es[i].id != es[j].id
  }

  /** How one more insertion moves a window. */
  function Slide(es: seq<Entry>, e: Entry): seq<Entry> {
    (if |es| >= CAP then es[1..] else es) + [e]
  }

  lemma WindowSlides(ins: seq<Entry>, e: Entry)
    ensures Window(ins + [e]) == Slide(Window(ins), e)
  {
  }

  lemma InsertionsNext(calls: seq<Entry>, e: Entry)
    ensures Insertions(calls + [e]) == if Has(Remembered(calls), e.id) then Insertions(calls) else Insertions(calls) + [e]
  {
    assert (calls + [e])[..|calls|] == calls;
  }

  lemma RememberedNext(calls: seq<Entry>, e: Entry)
    ensures Remembered(calls + [e]) == if Has(Remembered(calls), e.id) then Remembered(calls) else Slide(Remembered(calls), e)
  {
    hide Window, Has, Slide;
    InsertionsNext(calls, e);
    WindowSlides(Insertions(calls), e);
  }

  lemma SlideKeepsDistinct(es: seq<Entry>, e: Entry)
    requires DistinctIds(es) && !Has(es, e.id)
    ensures DistinctIds(Slide(es, e)) && (|es| <= CAP ==> |Slide(es, e)| <= CAP)
  {
  }

  lemma {:induction false} RememberedIdsDiffer(calls: seq<Entry>)
    ensures DistinctIds(Remembered(calls)) && |Remembered(calls)| <= CAP
  {
    if calls != [] {
      hide Remembered, Slide, DistinctIds, Has;
      var before, e := calls[..|calls| - 1], calls[|calls| - 1];
      assert calls == before + [e];
      RememberedIdsDiffer(before);
      RememberedNext(before, e);
      if !Has(Remembered(before), e.id) {
        SlideKeepsDistinct(Remembered(before), e);
      }
    }
  }

  /** The map and the queue hold exactly the entries. */
  ghost predicate Holds(results: map<JobId, string>, order: seq<JobId>, es: seq<Entry>) {
    && |order| == |es|
    && (forall i :: 0 <= i < |es| ==> order[i] == es[i].id)
    && results.Keys == (set id | id in order)
    && forall i :: 0 <= i < |es| ==> es[i].id in results && results[es[i].id] == es[i].summary
  }

  lemma HoldsLookup(results: map<JobId, string>, order: seq<JobId>, es: seq<Entry>, id: JobId)
    requires Holds(results, order, es)
    ensures id in results <==> Has(es, id)
    ensures forall s :: Entry(id, s) in es <==> id in results && results[id] == s
  {
    if id in results {
      var i :| 0 <= i < |order| && order[i] == id;
      assert es[i].id == id && es[i] == Entry(id, results[id]);
    }
  }

  lemma HoldsSlide(results: map<JobId, string>, order: seq<JobId>, es: seq<Entry>, e: Entry)
    requires Holds(results, order, es) && DistinctIds(es) && !Has(es, e.id) && |es| < CAP
    ensures Holds(results[e.id := e.summary], order + [e.id], es + [e])
  {
    var t := es + [e];
    forall i | 0 <= i < |t| ensures t[i].id in results[e.id := e.summary] && results[e.id := e.summary][t[i].id] == t[i].summary {
      if i < |es| {
        assert t[i] == es[i];
      }
    }
  }

  lemma HoldsEvict(results: map<JobId, string>, order: seq<JobId>, es: seq<Entry>)
    requires Holds(results, order, es) && DistinctIds(es) && es != []
    ensures Holds(results - {order[0]}, order[1..], es[1..]) && DistinctIds(es[1..])
  {
    var r, o, t := results - {order[0]}, order[1..], es[1..];
    forall i | 0 <= i < |t| ensures o[i] == t[i].id && t[i].id in r && r[t[i].id] == t[i].summary {
      assert t[i] == es[i + 1] && es[0].id != es[i + 1].id;
    }
    forall id | id in r ensures id in o {
      var i :| 0 <= i < |order| && order[i] == id;
      assert o[i - 1] == id;
    }
  }

  // ---- the implementation ------------------------------------------------

  class Server {
    var results: map<JobId, string>
    var order: seq<JobId>
    ghost var calls: seq<Entry>

    ghost predicate Valid()
      reads this
    {
      Holds(results, order, Remembered(calls))
    }

    constructor ()
      ensures Valid() && calls == []
    {
      results, order, calls := map[], [], [];
    }

    method Cached(id: JobId) returns (res: Option<string>)
      requires Valid()
      ensures forall s :: Recalls(calls, id, s) <==> res == Some(s)
    {
      hide Holds, Remembered;
      HoldsLookup(results, order, Remembered(calls), id);
      res := if id in results then Some(results[id]) else None;
    }

    method Remember(id: JobId, summary: string)
      requires Valid()
      modifies this
      ensures Valid() && calls == old(calls) + [Entry(id, summary)]
      ensures
        var known, full := id in old(results), |old(order)| == 10_000;
        && (known ==> results == old(results) && order == old(order))
        && (!known && !full ==> results == old(results)[id := summary] && order == old(order) + [id])
        && (!known && full ==>
              && results == (old(results) - {old(order)[0]})[id := summary]
              && order == old(order)[1..] + [id])
      ensures |order| <= 10_000 && |results| == |order|
    {
      hide Holds, Remembered, DistinctIds, Has;
      ghost var es, e := Remembered(calls), Entry(id, summary);
      RememberedNext(calls, e);
      RememberedIdsDiffer(calls);
      HoldsLookup(results, order, es, id);
      calls := calls + [e];
      HoldsSizes(results, order, es);
      if id in results {
        return;
      }
      if |order| >= CAP {
        HoldsEvict(results, order, es);
        HoldsLookup(results - {order[0]}, order[1..], es[1..], id);
        es := es[1..];
        results := results - {order[0]};
        order := order[1..];
        HoldsSizes(results, order, es);
      }
      HoldsSlide(results, order, es, e);
      order := order + [id];
      results := results[id := summary];
      RememberedIdsDiffer(calls);
      HoldsSizes(results, order, Remembered(calls));
    }
  }

  lemma {:induction false} HoldsSizes(results: map<JobId, string>, order: seq<JobId>, es: seq<Entry>)
    requires Holds(results, order, es) && DistinctIds(es)
    ensures |results| == |order| == |es|
    decreases |es|
  {
    if es != [] {
      HoldsEvict(results, order, es);
      HoldsSizes(results - {order[0]}, order[1..], es[1..]);
      assert (results - {order[0]}).Keys == results.Keys - {order[0]};
    } else {
      assert results.Keys == {};
    }
  }

  // ---- over any sequence of calls ----------------------------------------

  /** Call `n` introduced the summary: the id was unknown before it, and has been
      recalled with that summary ever since. */
  ghost predicate Introduced(calls: seq<Entry>, n: nat, id: JobId, summary: string) {
    && n < |calls| && calls[n] == Entry(id, summary)
    && (forall s :: !Recalls(calls[..n], id, s))
    && forall m :: n < m <= |calls| ==> Recalls(calls[..m], id, summary)
  }

  /** A remembered summary is the one given first since its id was last unknown. */
  lemma {:induction false} FirstSummaryWins(calls: seq<Entry>, id: JobId, summary: string)
    ensures Recalls(calls, id, summary) <==> exists n :: Introduced(calls, n, id, summary)
    decreases |calls|
  {
    if n :| Introduced(calls, n, id, summary) {
      assert calls[..|calls|] == calls;
    } else if Recalls(calls, id, summary) {
      assert calls != [];
      hide Recalls, Introduced;
      var before, e := calls[..|calls| - 1], calls[|calls| - 1];
      assert calls == before + [e];
      RecallsNext(before, e, id, summary);
      FirstSummaryWins(before, id, summary);
      if n :| Introduced(before, n, id, summary) {
        StillIntroduced(before, e, n, id, summary);
      } else {
        JustIntroduced(before, e);
      }
    }
  }

  lemma StillIntroduced(calls: seq<Entry>, e: Entry, n: nat, id: JobId, summary: string)
    requires Introduced(calls, n, id, summary) && Recalls(calls + [e], id, summary)
    ensures Introduced(calls + [e], n, id, summary)
  {
    hide Recalls;
    var t := calls + [e];
    assert t[..n] == calls[..n];
    forall m | n < m <= |t| ensures Recalls(t[..m], id, summary) {
      assert t[..m] == if m <= |calls| then calls[..m] else t;
    }
  }

  lemma JustIntroduced(calls: seq<Entry>, e: Entry)
    requires Recalls(calls + [e], e.id, e.summary) && forall s :: !Recalls(calls, e.id, s)
    ensures Introduced(calls + [e], |calls|, e.id, e.summary)
  {
    hide Recalls;
    var t := calls + [e];
    assert t[..|calls|] == calls && t[..|t|] == t;
  }

  lemma RecallsNext(calls: seq<Entry>, e: Entry, id: JobId, summary: string)
    requires Recalls(calls + [e], id, summary)
    ensures Recalls(calls, id, summary) || (e == Entry(id, summary) && forall s :: !Recalls(calls, id, s))
  {
    hide Remembered;
    RememberedNext(calls, e);
  }

  lemma {:induction false} InsertionsGrow(calls: seq<Entry>, more: seq<Entry>)
    ensures Insertions(calls) <= Insertions(calls + more)
    decreases |more|
  {
    if more == [] {
      assert calls + more == calls;
    } else {
      hide *;
      var mid, e := calls + more[..|more| - 1], more[|more| - 1];
      assert mid + [e] == calls + more;
      InsertionsGrow(calls, more[..|more| - 1]);
      InsertionsNext(mid, e);
    }
  }

  /** Calls for other jobs insert nothing for this one. */
  lemma {:induction false} OthersInsertOthers(calls: seq<Entry>, more: seq<Entry>, id: JobId)
    requires forall i :: 0 <= i < |more| ==> more[i].id != id
    ensures forall k :: |Insertions(calls)| <= k < |Insertions(calls + more)| ==> Insertions(calls + more)[k].id != id
    decreases |more|
  {
    if more == [] {
      assert calls + more == calls;
    } else {
      hide *;
      var front, e := more[..|more| - 1], more[|more| - 1];
      assert calls + more == calls + front + [e];
      OthersInsertOthers(calls, front, id);
      InsertionsNext(calls + front, e);
    }
  }

  /** A job's summary is recalled exactly until CAP other jobs have been inserted
      after it, as long as nobody remembers the job anew. */
  lemma RecalledForCapInsertions(calls: seq<Entry>, e: Entry, more: seq<Entry>)
    requires !Has(Remembered(calls), e.id)
    requires forall i :: 0 <= i < |more| ==> more[i].id != e.id
    ensures Recalls(calls + [e] + more, e.id, e.summary)
      <==> |Insertions(calls + [e] + more)| < |Insertions(calls + [e])| + 10_000
  {
    InsertionsNext(calls, e);
    RecallsIf(calls + [e] + more, e);
    assert CAP == 10_000;
    hide *;
    InsertionsGrow(calls + [e], more);
    OthersInsertOthers(calls + [e], more, e.id);
    InTheWindow(Insertions(calls), e, Insertions(calls + [e] + more));
  }

  lemma RecallsIf(calls: seq<Entry>, e: Entry)
    ensures Recalls(calls, e.id, e.summary) <==> e in Window(Insertions(calls))
  {
  }

  /** An insertion is in the window until CAP others, of other ids, follow it. */
  lemma InTheWindow(before: seq<Entry>, e: Entry, all: seq<Entry>)
    requires before + [e] <= all
    requires forall k :: |before| + 1 <= k < |all| ==> all[k].id != e.id
    ensures e in Window(all) <==> |all| < |before| + 1 + CAP
  {
    assert all[|before|] == (before + [e])[|before|] == e;
    if |all| < |before| + 1 + CAP {
      assert Window(all)[|Window(all)| - (|all| - |before|)] == e;
    } else {
      forall k | 0 <= k < |Window(all)| ensures Window(all)[k].id != e.id {
        assert Window(all)[k] == all[|all| - CAP + k];
      }
    }
  }

  /** Remembered anew or not, it is not forgotten before. */
  lemma RememberedForCapInsertions(calls: seq<Entry>, e: Entry, more: seq<Entry>)
    requires !Has(Remembered(calls), e.id)
    requires |Insertions(calls + [e] + more)| < |Insertions(calls + [e])| + 10_000
    ensures Recalls(calls + [e] + more, e.id, e.summary)
  {
    var ins, all := Insertions(calls + [e]), Insertions(calls + [e] + more);
    InsertionsNext(calls, e);
    RecallsIf(calls + [e] + more, e);
    assert CAP == 10_000;
    hide *;
    InsertionsGrow(calls + [e], more);
    StillInTheWindow(Insertions(calls), e, all);
  }

  lemma StillInTheWindow(before: seq<Entry>, e: Entry, all: seq<Entry>)
    requires before + [e] <= all && |all| < |before| + 1 + CAP
    ensures e in Window(all)
  {
    assert all[|before|] == (before + [e])[|before|] == e;
    assert Window(all)[|Window(all)| - (|all| - |before|)] == e;
  }
}
