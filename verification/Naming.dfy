/** Object keys: the client's file name made harmless, under the job's id. */
module Naming {

  const MAX_NAME: nat := 128

  /** The characters the service keeps: \w, '.' and '-'. */
  predicate Safe(c: char) {
    'a' <= c <= 'z' || 'A' <= c <= 'Z' || '0' <= c <= '9' || c == '_' || c == '.' || c == '-'
  }

  ghost predicate AllSafe(s: string) {
    forall i :: 0 <= i < |s| ==> Safe(s[i])
  }

  function BackslashToSlash(s: string): string {
    seq(|s|, i requires 0 <= i < |s| => if s[i] == '\\' then '/' else s[i])
  }

  function TrimSlashes(s: string): string {
    if s != "" && s[|s| - 1] == '/' then TrimSlashes(s[..|s| - 1]) else s
  }

  function AfterLastSlash(s: string): string {
    if s == "" || s[|s| - 1] == '/' then "" else AfterLastSlash(s[..|s| - 1]) + [s[|s| - 1]]
  }

  /** path.Base. */
  function Base(s: string): string {
    if s == "" then "."
    else if TrimSlashes(s) == "" then "/"
    else AfterLastSlash(TrimSlashes(s))
  }

  function DropUnsafe(s: string): (r: string)
    ensures |r| <= |s|
  {
    if s != "" && !Safe(s[0]) then DropUnsafe(s[1..]) else s
  }

  /** Each run of other characters becomes one underscore. */
  function Collapse(s: string): string
    decreases |s|
  {
    if s == "" then ""
    else if Safe(s[0]) then [s[0]] + Collapse(s[1..])
    else "_" + Collapse(DropUnsafe(s[1..]))
  }

  function TrimDots(s: string): string
    decreases |s|
  {
    if s != "" && s[0] == '.' then TrimDots(s[1..])
    else if s != "" && s[|s| - 1] == '.' then TrimDots(s[..|s| - 1])
    else s
  }

  /** sanitizeFileName; `stamp` is the clock's decimal rendering. */
  function Sanitize(name: string, stamp: string): string {
    Shorten(TrimDots(Collapse(Base(BackslashToSlash(name)))), stamp)
  }

  function Shorten(trimmed: string, stamp: string): string {
    var short := if |trimmed| > MAX_NAME then trimmed[|trimmed| - MAX_NAME..] else trimmed;
    if short == "" then "file-" + stamp else short
  }

  /** path.Join("jobs", id, name) for segments that path.Join leaves alone. */
  function ObjectKey(id: string, name: string): string {
    "jobs/" + id + "/" + name
  }

  /** A path segment that path.Join neither splits, drops nor resolves. */
  predicate PlainSegment(s: string) {
    s != "" && '/' !in s && s != "." && s != ".."
  }

  predicate Digits(s: string) {
    s != "" && forall i :: 0 <= i < |s| ==> '0' <= s[i] <= '9'
  }

  lemma {:induction false} CollapseIsSafe(s: string)
    ensures AllSafe(Collapse(s))
    decreases |s|
  {
    if s != "" {
      if Safe(s[0]) {
        CollapseIsSafe(s[1..]);
      } else {
        CollapseIsSafe(DropUnsafe(s[1..]));
      }
    }
  }

  lemma {:induction false} TrimDotsTrims(s: string)
    ensures AllSafe(s) ==> AllSafe(TrimDots(s))
    ensures TrimDots(s) != "" ==> TrimDots(s)[0] != '.' && TrimDots(s)[|TrimDots(s)| - 1] != '.'
    decreases |s|
  {
    if s != "" && s[0] == '.' {
      TrimDotsTrims(s[1..]);
    } else if s != "" && s[|s| - 1] == '.' {
      TrimDotsTrims(s[..|s| - 1]);
    }
  }

  /** Whatever the client calls its file, the stored name is a plain path segment
      of safe characters, so the key stays below the job's own prefix. */
  lemma SanitizedNamesArePlain(name: string, stamp: string)
    requires Digits(stamp)
    ensures forall c :: c in Sanitize(name, stamp) ==>
      'a' <= c <= 'z' || 'A' <= c <= 'Z' || '0' <= c <= '9' || c == '_' || c == '.' || c == '-'
    ensures PlainSegment(Sanitize(name, stamp)) && Sanitize(name, stamp) !in {"", ".", ".."}
    ensures |Sanitize(name, stamp)| <= 128 || Sanitize(name, stamp) == "file-" + stamp
  {
    var collapsed := Collapse(Base(BackslashToSlash(name)));
    CollapseIsSafe(Base(BackslashToSlash(name)));
    TrimDotsTrims(collapsed);
    hide Collapse, Base, TrimDots, BackslashToSlash;
    var r := Sanitize(name, stamp);
    assert AllSafe(r);
    assert forall c :: c in r ==> Safe(c);
  }

  // ---- which name it becomes ---------------------------------------------

  ghost predicate OneSegment(s: string) {
    s != "" && '/' !in s && '\\' !in s
  }

  lemma {:induction false} NoSlashToFollow(s: string)
    requires '/' !in s
    ensures AfterLastSlash(s) == s
  {
    if s != "" {
      NoSlashToFollow(s[..|s| - 1]);
      assert s == s[..|s| - 1] + [s[|s| - 1]];
    }
  }

  lemma SegmentIsItsBase(s: string)
    requires OneSegment(s)
    ensures Base(BackslashToSlash(s)) == s
  {
    assert s[|s| - 1] in s;
    assert BackslashToSlash(s) == s;
    NoSlashToFollow(s);
  }

  lemma {:induction false} CollapseKeeps(a: string, t: string)
    requires AllSafe(a)
    ensures Collapse(a + t) == a + Collapse(t)
  {
    if a == "" {
      assert a + t == t;
    } else {
      assert (a + t)[1..] == a[1..] + t;
      CollapseKeeps(a[1..], t);
      assert a == [a[0]] + a[1..];
    }
  }

  ghost predicate NoneSafe(s: string) {
    forall i :: 0 <= i < |s| ==> !Safe(s[i])
  }

  lemma {:induction false} UnsafeIsDropped(u: string, b: string)
    requires NoneSafe(u) && (b == "" || Safe(b[0]))
    ensures DropUnsafe(u + b) == b
  {
    if u == "" {
      assert u + b == b;
    } else {
      assert (u + b)[1..] == u[1..] + b;
      UnsafeIsDropped(u[1..], b);
    }
  }

  lemma CollapseOnce(u: string, b: string)
    requires u != "" && NoneSafe(u) && (b == "" || Safe(b[0]))
    ensures Collapse(u + b) == "_" + Collapse(b)
  {
    assert (u + b)[1..] == u[1..] + b;
    UnsafeIsDropped(u[1..], b);
  }

  ghost predicate NoOuterDots(s: string) {
    s != "" && s[0] != '.' && s[|s| - 1] != '.'
  }

  lemma SafeIsOneSegment(s: string)
    requires AllSafe(s) && s != ""
    ensures OneSegment(s) && Collapse(s) == s
  {
    CollapseKeeps(s, "");
    assert s + "" == s;
  }

  /** A harmless name is kept, and of a long one its last 128 characters. */
  lemma HarmlessNamesStay(name: string, stamp: string)
    requires forall c :: c in name ==>
      'a' <= c <= 'z' || 'A' <= c <= 'Z' || '0' <= c <= '9' || c == '_' || c == '.' || c == '-'
    requires name != "" && name[0] != '.' && name[|name| - 1] != '.'
    ensures Sanitize(name, stamp) == if |name| <= 128 then name else name[|name| - 128..]
  {
    assert forall i :: 0 <= i < |name| ==> name[i] in name;
    assert AllSafe(name) && NoOuterDots(name);
    ShortensTo(name, stamp);
    hide *;
    SafeIsOneSegment(name);
    SegmentIsItsBase(name);
    NothingToTrim(name);
    SanitizeIs(name, stamp);
  }

  lemma ShortensTo(name: string, stamp: string)
    requires name != ""
    ensures Shorten(name, stamp) == if |name| <= 128 then name else name[|name| - 128..]
  {
  }

  /** A run of other characters becomes one underscore. */
  lemma UnsafeRunsCollapse(a: string, u: string, b: string, stamp: string)
    requires AllSafe(a) && AllSafe(b) && NoOuterDots(a) && NoOuterDots(b)
    requires OneSegment(u) && NoneSafe(u) && |a| + 1 + |b| <= 128
    ensures Sanitize(a + u + b, stamp) == a + "_" + b
  {
    assert NoOuterDots(a + "_" + b);
    CollapsesTo(a, u, b);
    hide *;
    SanitizesTo(a + u + b, a + "_" + b, stamp);
  }

  lemma SanitizesTo(name: string, clean: string, stamp: string)
    requires OneSegment(name) && Collapse(name) == clean && NoOuterDots(clean) && |clean| <= 128
    ensures Sanitize(name, stamp) == clean
  {
    ShortensTo(clean, stamp);
    hide Shorten, Collapse, TrimDots, Base, BackslashToSlash, OneSegment;
    SegmentIsItsBase(name);
    NothingToTrim(clean);
  }

  lemma CollapsesTo(a: string, u: string, b: string)
    requires AllSafe(a) && AllSafe(b) && a != "" && b != "" && OneSegment(u) && NoneSafe(u)
    ensures OneSegment(a + u + b) && Collapse(a + u + b) == a + "_" + b
  {
    SafeIsOneSegment(a);
    SafeIsOneSegment(b);
    var rest := u + b;
    assert a + u + b == a + rest;
    CollapseKeeps(a, rest);
    CollapseOnce(u, b);
    assert Collapse(rest) == "_" + b;
    hide *;
    Segments(u, b);
    Segments(a, rest);
    assert a + ("_" + b) == a + "_" + b;
  }

  lemma Segments(a: string, b: string)
    ensures OneSegment(a) && (b == "" || OneSegment(b)) ==> OneSegment(a + b)
  {
  }

  lemma NothingToTrim(s: string)
    requires NoOuterDots(s)
    ensures TrimDots(s) == s
  {
  }

  lemma {:induction false} AfterTheSlash(d: string, n: string)
    ensures AfterLastSlash(d + "/" + n) == AfterLastSlash(n)
  {
    var s := d + "/" + n;
    if n == "" {
      assert s[|s| - 1] == '/';
    } else {
      assert s[|s| - 1] == n[|n| - 1] && s[..|s| - 1] == d + "/" + n[..|n| - 1];
      AfterTheSlash(d, n[..|n| - 1]);
    }
  }

  lemma {:induction false} TrimTheEnd(d: string, n: string)
    requires exists i :: 0 <= i < |n| && n[i] != '/'
    ensures TrimSlashes(d + n) == d + TrimSlashes(n) && TrimSlashes(n) != ""
  {
    var s, m := d + n, n[..|n| - 1];
    assert s[|s| - 1] == n[|n| - 1] && s[..|s| - 1] == d + m;
    if n[|n| - 1] == '/' {
      var i :| 0 <= i < |n| && n[i] != '/';
      assert m[i] == n[i];
      TrimTheEnd(d, m);
    }
  }

  /** Whatever is before the last slash or backslash is dropped, unless only
      slashes follow it. */
  lemma DirectoriesAreDropped(dir: string, slash: char, name: string, stamp: string)
    requires slash == '/' || slash == '\\'
    requires exists i :: 0 <= i < |name| && name[i] != '/' && name[i] != '\\'
    ensures Sanitize(dir + [slash] + name, stamp) == Sanitize(name, stamp)
  {
    var d, n := BackslashToSlash(dir), BackslashToSlash(name);
    var i :| 0 <= i < |name| && name[i] != '/' && name[i] != '\\';
    assert n[i] != '/';
    assert BackslashToSlash(dir + [slash] + name) == d + "/" + n;
    TrimTheEnd(d + "/", n);
    TrimTheEnd("", n);
    assert "" + n == n;
    AfterTheSlash(d, TrimSlashes(n));
    assert Base(d + "/" + n) == Base(n);
  }

  lemma {:induction false} TrimDotsAtTheEnd(s: string)
    ensures TrimDots(s + ".") == TrimDots(s)
    decreases |s|
  {
    var t := s + ".";
    if s == "" {
      assert t[1..] == "" && TrimDots("") == "";
    } else if s[0] == '.' {
      assert t[1..] == s[1..] + ".";
      TrimDotsAtTheEnd(s[1..]);
    } else {
      assert t[..|t| - 1] == s;
    }
  }

  lemma {:induction false} CollapseThenDot(s: string)
    ensures Collapse(s + ".") == Collapse(s) + "."
    decreases |s|
  {
    var t := s + ".";
    if s == "" {
      assert t[1..] == "" && Collapse("") == "";
    } else if Safe(s[0]) {
      assert t[1..] == s[1..] + ".";
      CollapseThenDot(s[1..]);
    } else {
      assert t[1..] == s[1..] + ".";
      DropThenDot(s[1..]);
      CollapseThenDot(DropUnsafe(s[1..]));
    }
  }

  lemma {:induction false} DropThenDot(s: string)
    ensures DropUnsafe(s + ".") == DropUnsafe(s) + "."
  {
    if s != "" && !Safe(s[0]) {
      assert (s + ".")[1..] == s[1..] + ".";
      DropThenDot(s[1..]);
    }
  }

  /** Dots at either end do not matter. */
  lemma OuterDotsAreDropped(name: string, stamp: string)
    requires OneSegment(name)
    ensures Sanitize("." + name, stamp) == Sanitize(name, stamp) == Sanitize(name + ".", stamp)
  {
    assert OneSegment(".");
    Segments(".", name);
    Segments(name, ".");
    hide *;
    SegmentIsItsBase(name);
    SegmentIsItsBase("." + name);
    SegmentIsItsBase(name + ".");
    DotFirst(name);
    CollapseThenDot(name);
    TrimDotsAtTheEnd(Collapse(name));
    SanitizeIs("." + name, stamp);
    SanitizeIs(name + ".", stamp);
    SanitizeIs(name, stamp);
  }

  lemma DotFirst(s: string)
    ensures TrimDots(Collapse("." + s)) == TrimDots(Collapse(s))
  {
    assert ("." + s)[1..] == s;
    var t := Collapse("." + s);
    assert t == "." + Collapse(s) && t[1..] == Collapse(s);
  }

  lemma SanitizeIs(name: string, stamp: string)
    ensures Sanitize(name, stamp) == Shorten(TrimDots(Collapse(Base(BackslashToSlash(name)))), stamp)
  {
  }

  ghost predicate OnlyDots(s: string) {
    forall i :: 0 <= i < |s| ==> s[i] == '.'
  }

  lemma {:induction false} TrimDotsToNothing(s: string)
    ensures TrimDots(s) == "" <==> OnlyDots(s)
    decreases |s|
  {
    if s != "" && s[0] == '.' {
      TrimDotsToNothing(s[1..]);
      assert OnlyDots(s[1..]) ==> forall i :: 0 < i < |s| ==> s[i] == s[1..][i - 1];
    } else if s != "" && s[|s| - 1] == '.' {
      TrimDotsToNothing(s[..|s| - 1]);
      assert s[..|s| - 1][0] == s[0];
    }
  }

  lemma {:induction false} CollapseToDots(s: string)
    ensures OnlyDots(Collapse(s)) <==> OnlyDots(s)
    decreases |s|
  {
    if s != "" {
      if Safe(s[0]) {
        CollapseToDots(s[1..]);
        assert s == [s[0]] + s[1..];
        assert Collapse(s)[1..] == Collapse(s[1..]);
        assert Collapse(s) == [s[0]] + Collapse(s)[1..];
      } else {
        assert Collapse(s)[0] == '_';
      }
    }
  }

  /** The clock names a file exactly when its name has nothing but dots. */
  lemma ClockNamesDotsOnly(name: string, stamp: string, other: string)
    requires (name == "" || OneSegment(name)) && stamp != other
    ensures OnlyDots(name) ==> Sanitize(name, stamp) == "file-" + stamp
    ensures !OnlyDots(name) ==> Sanitize(name, stamp) == Sanitize(name, other) != ""
  {
    if name != "" {
      SegmentIsItsBase(name);
      CollapseToDots(name);
      TrimDotsToNothing(Collapse(name));
    } else {
      assert Collapse(".") == "." + Collapse("") == ".";
      TrimDotsToNothing(".");
    }
  }

  // ---- keys --------------------------------------------------------------

  /** Everything stored for a job lies under its prefix. */
  predicate Under(id: string, key: string) {
    "jobs/" + id + "/" <= key
  }

  lemma KeyIsUnder(id: string, name: string)
    ensures Under(id, ObjectKey(id, name)) && ObjectKey(id, name) != ""
  {
    assert ObjectKey(id, name)[..|"jobs/" + id + "/"|] == "jobs/" + id + "/";
  }

  /** Two jobs never share an object key: ids contain no slash. */
  lemma UnderOneJobOnly(a: string, b: string, key: string)
    requires '/' !in a && '/' !in b && Under(a, key) && Under(b, key)
    ensures a == b
  {
    var pa, pb := "jobs/" + a + "/", "jobs/" + b + "/";
    assert forall i :: 0 <= i < |a| ==> key[5 + i] == pa[5 + i] == a[i];
    assert forall i :: 0 <= i < |b| ==> key[5 + i] == pb[5 + i] == b[i];
    assert key[5 + |a|] == pa[5 + |a|] == '/' && key[5 + |b|] == pb[5 + |b|] == '/';
    assert |a| == |b|;
  }

  lemma UnderNotEmpty(id: string, key: string)
    requires Under(id, key)
    ensures key != ""
  {
  }
}
