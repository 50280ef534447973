/** The parts of Go's `path` and `strconv` packages that build request paths:
    `path.Join` on a rooted first element, `path.Clean` of a rooted path and
    `strconv.Itoa`. */
module Paths {
  import opened Sequences

  /** strings.Join(segs, "/"). */
  function JoinWith(segs: seq<string>): string
  {
    if |segs| == 0 then ""
    else if |segs| == 1 then segs[0]
    else segs[0] + "/" + JoinWith(segs[1..])
  }

  /** The segments of `s` between slashes; `Split("/a//b") == ["", "a", "", "b"]`. */
  function Split(s: string): (r: seq<string>)
    ensures |r| > 0
    ensures forall k :: 0 <= k < |r| ==> '/' !in r[k]
    ensures JoinWith(r) == s
    decreases |s|
  {
    if s == [] then [""]
    else
      var rest := Split(s[1..]);
      if s[0] == '/' then
        assert s == "" + "/" + JoinWith(rest);
        [""] + rest
      else
        assert s == [s[0]] + s[1..];
        SplitCons(s[0], rest);
        [[s[0]] + rest[0]] + rest[1..]
  }

  /** Prepending a non-slash character extends the first segment. */
  lemma SplitCons(c: char, rest: seq<string>)
    requires c != '/' && |rest| > 0
    ensures JoinWith([[c] + rest[0]] + rest[1..]) == [c] + JoinWith(rest)
  {
    var r := [[c] + rest[0]] + rest[1..];
    if |rest| > 1 {
      assert r[0] == [c] + rest[0] && r[1..] == rest[1..];
      var tail := JoinWith(rest[1..]);
      assert JoinWith(r) == [c] + rest[0] + "/" + tail;
      assert JoinWith(rest) == rest[0] + "/" + tail;
      ConcatAssoc([c], rest[0], "/");
      ConcatAssoc([c], rest[0] + "/", tail);
    } else {
      assert r == [[c] + rest[0]];
    }
  }

  /** A slash-free segment with nothing after it is one segment. */
  lemma SplitOne(seg: string)
    requires '/' !in seg
    ensures Split(seg) == [seg]
    decreases |seg|
  {
    if seg != [] {
      SplitOne(seg[1..]);
    }
  }

  /** Splitting a slash-free segment followed by a slash and more text. */
  lemma {:induction false} SplitSegmentThen(seg: string, rest: string)
    requires '/' !in seg
    ensures Split(seg + "/" + rest) == [seg] + Split(rest)
    decreases |seg|
  {
    var s := seg + "/" + rest;
    if seg == [] {
      assert s == "/" + rest && s[1..] == rest;
    } else {
      assert s[0] == seg[0] && s[1..] == seg[1..] + "/" + rest;
      SplitSegmentThen(seg[1..], rest);
      assert [seg[0]] + seg[1..] == seg;
    }
  }

  /** Split undoes JoinWith on slash-free segments (JoinWith undoes Split by Split's contract). */
  lemma {:induction false} SplitJoinWith(segs: seq<string>)
    requires |segs| > 0
    requires forall k :: 0 <= k < |segs| ==> '/' !in segs[k]
    ensures Split(JoinWith(segs)) == segs
  {
    if |segs| == 1 {
      SplitOne(segs[0]);
    } else {
      SplitJoinWith(segs[1..]);
      SplitSegmentThen(segs[0], JoinWith(segs[1..]));
      assert segs == [segs[0]] + segs[1..];
    }
  }

  /** The element processing of path.Clean on a rooted path: empty and "." elements
      are dropped, ".." removes the element before it and is dropped at the root. */
  function Resolve(done: seq<string>, segs: seq<string>): seq<string>
    decreases |segs|
  {
    if segs == [] then done
    else if segs[0] == "" || segs[0] == "." then Resolve(done, segs[1..])
    else if segs[0] == ".." then Resolve(if done == [] then [] else done[..|done| - 1], segs[1..])
    else Resolve(done + [segs[0]], segs[1..])
  }

  /** A path element that path.Clean leaves alone: non-empty, no slash, not "." or "..". */
  predicate CleanSegment(s: string)
  {
    s != "" && s != "." && s != ".." && '/' !in s
  }

  /** path.Clean of a rooted path: again a rooted path. */
  function CleanRooted(p: string): (r: string)
    requires |p| > 0 && p[0] == '/'
    ensures |r| > 0 && r[0] == '/'
  {
    "/" + JoinWith(Resolve([], Split(p)))
  }

  /** path.Join for a rooted, non-empty first element: the elements joined by "/",
      then cleaned. (Go skips empty elements only while nothing has been written yet,
      which the rooted first element rules out.) */
  function Join(elems: seq<string>): (r: string)
    requires |elems| > 0 && |elems[0]| > 0 && elems[0][0] == '/'
    ensures |r| > 0 && r[0] == '/'
  {
    CleanRooted(JoinWith(elems))
  }

  lemma {:induction false} ResolveClean(done: seq<string>, segs: seq<string>)
    requires forall k :: 0 <= k < |segs| ==> CleanSegment(segs[k])
    ensures Resolve(done, segs) == done + segs
    decreases |segs|
  {
    if segs != [] {
      ResolveClean(done + [segs[0]], segs[1..]);
      assert done + [segs[0]] + segs[1..] == done + segs;
    }
  }

  /** Resolving slash-free elements onto clean ones leaves only clean elements:
      no empty element, no "." and no "..". */
  lemma {:induction false} ResolveYieldsClean(done: seq<string>, segs: seq<string>)
    requires forall k :: 0 <= k < |done| ==> CleanSegment(done[k])
    requires forall k :: 0 <= k < |segs| ==> '/' !in segs[k]
    ensures forall k :: 0 <= k < |Resolve(done, segs)| ==> CleanSegment(Resolve(done, segs)[k])
    decreases |segs|
  {
    if segs != [] {
      var rest := segs[1..];
      assert forall k :: 0 <= k < |rest| ==> rest[k] == segs[k + 1];
      if segs[0] == "" || segs[0] == "." {
        ResolveYieldsClean(done, rest);
      } else if segs[0] == ".." {
        var d := if done == [] then [] else done[..|done| - 1];
        assert forall k :: 0 <= k < |d| ==> d[k] == done[k];
        ResolveYieldsClean(d, rest);
      } else {
        var d := done + [segs[0]];
        assert forall k :: 0 <= k < |d| ==> d[k] == if k < |done| then done[k] else segs[0];
        ResolveYieldsClean(d, rest);
      }
    }
  }

  /** path.Clean is idempotent on rooted paths: a cleaned path is already clean. */
  lemma CleanIdempotent(p: string)
    requires |p| > 0 && p[0] == '/'
    ensures CleanRooted(CleanRooted(p)) == CleanRooted(p)
  {
    var segs := Resolve([], Split(p));
    ResolveYieldsClean([], Split(p));
    if segs == [] {
      assert CleanRooted(p) == "/";
      assert Split("") == [""];
      assert Split("/") == [""] + Split("");
      assert Resolve([], ["", ""]) == [];
    } else {
      CleanJoined(segs);
    }
  }

  /** A rooted path of clean segments is left unchanged by path.Clean. */
  lemma {:induction false} CleanJoined(segs: seq<string>)
    requires |segs| > 0
    requires forall k :: 0 <= k < |segs| ==> CleanSegment(segs[k])
    ensures CleanRooted("/" + JoinWith(segs)) == "/" + JoinWith(segs)
  {
    var all := [""] + segs;
    assert all[1..] == segs;
    assert JoinWith(all) == "/" + JoinWith(segs);
    forall k | 0 <= k < |all| ensures '/' !in all[k] {
      if k > 0 { assert all[k] == segs[k - 1]; }
    }
    SplitJoinWith(all);
    ResolveClean([], segs);
    assert Resolve([], Split("/" + JoinWith(segs))) == segs;
  }

  /** Joining two non-empty runs of segments puts one slash between their joins. */
  lemma {:induction false} JoinWithAppend(a: seq<string>, b: seq<string>)
    requires |a| > 0 && |b| > 0
    ensures JoinWith(a + b) == JoinWith(a) + "/" + JoinWith(b)
    decreases |a|
  {
    if |a| == 1 {
      JoinWithCons(a[0], b);
      assert a + b == [a[0]] + b;
    } else {
      JoinWithAppend(a[1..], b);
      assert (a + b)[1..] == a[1..] + b;
      assert JoinWith(a + b) == a[0] + "/" + JoinWith(a[1..] + b);
    }
  }

  /** path.Join of a rooted first element and further clean segments, where the
      first element is itself a slash followed by clean segments, is their plain join. */
  lemma JoinCleanElements(head: seq<string>, rest: seq<string>)
    requires |head| > 0 && |rest| > 0
    requires forall k :: 0 <= k < |head| ==> CleanSegment(head[k])
    requires forall k :: 0 <= k < |rest| ==> CleanSegment(rest[k])
    ensures Join(["/" + JoinWith(head)] + rest) == "/" + JoinWith(head + rest)
  {
    JoinRootedFirst(head, rest);
    CleanAppend(head, rest);
    CleanJoined(head + rest);
  }

  /** path.Join of a root of clean segments and further clean segments. */
  lemma JoinUnderRoot(root: string, head: seq<string>, rest: seq<string>)
    requires |head| > 0 && forall k :: 0 <= k < |head| ==> CleanSegment(head[k])
    requires root == "/" + JoinWith(head)
    requires |rest| > 0 && forall k :: 0 <= k < |rest| ==> CleanSegment(rest[k])
    ensures Join([root] + rest) == root + "/" + JoinWith(rest)
  {
    JoinCleanElements(head, rest);
    JoinWithAppend(head, rest);
    ConcatAssoc("/", JoinWith(head) + "/", JoinWith(rest));
    ConcatAssoc("/", JoinWith(head), "/");
  }

  /** Joining a slash-prefixed join in front of more segments is one slash-prefixed join. */
  lemma JoinRootedFirst(head: seq<string>, rest: seq<string>)
    requires |head| > 0 && |rest| > 0
    ensures JoinWith(["/" + JoinWith(head)] + rest) == "/" + JoinWith(head + rest)
  {
    var a, r := JoinWith(head), JoinWith(rest);
    JoinWithCons("/" + a, rest);
    JoinWithAppend(head, rest);
    ConcatAssoc("/", a, "/");
    ConcatAssoc("/", a + "/", r);
  }

  lemma CleanAppend(a: seq<string>, b: seq<string>)
    requires forall k :: 0 <= k < |a| ==> CleanSegment(a[k])
    requires forall k :: 0 <= k < |b| ==> CleanSegment(b[k])
    ensures forall k :: 0 <= k < |a + b| ==> CleanSegment((a + b)[k])
  {
  }

  /** One step of JoinWith on a sequence of at least two segments. */
  lemma JoinWithCons(head: string, tail: seq<string>)
    requires |tail| > 0
    ensures JoinWith([head] + tail) == head + "/" + JoinWith(tail)
  {
    assert ([head] + tail)[1..] == tail;
  }

  /** The decimal digits of a natural number, most significant first. */
  function Digits(n: nat): (r: string)
    ensures |r| > 0
    ensures forall k :: 0 <= k < |r| ==> '0' <= r[k] <= '9'
    ensures n == 0 ==> r == "0"
    ensures n > 0 ==> r[0] != '0'
  {
    var d := ['0' + (n % 10) as char];
    if n < 10 then d else Digits(n / 10) + d
  }

  /** strconv.Itoa: base-10 text with a leading '-' for negative numbers. */
  function Itoa(n: int): (r: string)
    ensures CleanSegment(r)
  {
    var r := if n < 0 then "-" + Digits(-n) else Digits(n);
    assert forall k :: 0 <= k < |r| ==> r[k] == '-' || '0' <= r[k] <= '9';
    assert r[0] != '.';
    r
  }

  /** The number a string of decimal digits denotes. */
  function DigitsValue(s: string): nat
    requires forall k :: 0 <= k < |s| ==> '0' <= s[k] <= '9'
  {
    if s == [] then 0 else DigitsValue(s[..|s| - 1]) * 10 + (s[|s| - 1] - '0') as nat
  }

  /** Reading back the digits Itoa writes gives the number. */
  lemma {:induction false} DigitsRoundTrip(n: nat)
    ensures DigitsValue(Digits(n)) == n
  {
    var r := Digits(n);
    if n >= 10 {
      DigitsRoundTrip(n / 10);
      assert r[..|r| - 1] == Digits(n / 10);
    }
  }
}
