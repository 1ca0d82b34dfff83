/** Go's `path/filepath` functions the tools use, with Unix semantics, as
    functions on `/`-separated strings.  `Clean` works on the list of
    slash-separated segments: it resolves them left to right against a
    stack, then renders the stack. */
module Paths {
  import Strs

  predicate IsAbs(p: string)
  {
    |p| > 0 && p[0] == '/'
  }

  /** One segment of lexical resolution: empty and `.` segments vanish,
      `..` pops a real name, is dropped at the root, and is kept in front
      of a relative path. */
  function Step(st: seq<string>, seg: string, rooted: bool): seq<string>
  {
    if seg == "" || seg == "." then st
    else if seg == ".." then
      if |st| > 0 && st[|st| - 1] != ".." then st[..|st| - 1]
      else if rooted then st
      else st + [".."]
    else st + [seg]
  }

  function Resolve(st: seq<string>, segs: seq<string>, rooted: bool): seq<string>
    decreases |segs|
  {
    if |segs| == 0 then st else Resolve(Step(st, segs[0], rooted), segs[1..], rooted)
  }

  function Render(rooted: bool, st: seq<string>): string
  {
    if rooted then "/" + Strs.Join(st, "/")
    else if |st| == 0 then "."
    else Strs.Join(st, "/")
  }

  /** The resolved segments of a non-empty path. */
  function Resolved(p: string): seq<string>
  {
    Resolve([], Strs.Split(p, '/'), IsAbs(p))
  }

  /** `filepath.Clean`: the shortest lexically equivalent path. */
  function Clean(p: string): string
  {
    if p == "" then "." else Render(IsAbs(p), Resolved(p))
  }

  /** A resolved stack: real names only, and for a relative path any `..`
      segments in front. */
  predicate Normal(st: seq<string>, rooted: bool)
  {
    && (forall k :: 0 <= k < |st| ==>
          st[k] != "" && st[k] != "." && '/' !in st[k] && (rooted ==> st[k] != ".."))
    && (forall j, k :: 0 <= j < k < |st| && st[k] == ".." ==> st[j] == "..")
  }

  lemma StepNormal(st: seq<string>, seg: string, rooted: bool)
    requires Normal(st, rooted) && '/' !in seg
    ensures Normal(Step(st, seg, rooted), rooted)
  {
    if seg == ".." && !(|st| > 0 && st[|st| - 1] != "..") && !rooted {
      var r := st + [".."];
      forall j, k | 0 <= j < k < |r| && r[k] == ".."
        ensures r[j] == ".."
      {
        if k < |st| {
          assert r[j] == st[j];
        } else if j < |st| - 1 {
          assert st[|st| - 1] == "..";
        }
      }
    }
  }

  lemma {:induction false} ResolveNormal(st: seq<string>, segs: seq<string>, rooted: bool)
    requires Normal(st, rooted)
    requires forall k :: 0 <= k < |segs| ==> '/' !in segs[k]
    ensures Normal(Resolve(st, segs, rooted), rooted)
    decreases |segs|
  {
    if |segs| > 0 {
      StepNormal(st, segs[0], rooted);
      ResolveNormal(Step(st, segs[0], rooted), segs[1..], rooted);
    }
  }

  /** Resolution is a left fold: resolving a concatenation resolves the
      second part against the result of the first. */
  lemma {:induction false} ResolveAppend(st: seq<string>, a: seq<string>, b: seq<string>, rooted: bool)
    ensures Resolve(st, a + b, rooted) == Resolve(Resolve(st, a, rooted), b, rooted)
    decreases |a|
  {
    if |a| > 0 {
      assert (a + b)[0] == a[0];
      assert (a + b)[1..] == a[1..] + b;
      ResolveAppend(Step(st, a[0], rooted), a[1..], b, rooted);
    } else {
      assert a + b == b;
    }
  }

  /** Segments already in normal form resolve to themselves. */
  lemma {:induction false} ResolveNormalSelf(acc: seq<string>, st: seq<string>, rooted: bool)
    requires Normal(acc + st, rooted)
    ensures Resolve(acc, st, rooted) == acc + st
    decreases |st|
  {
    if |st| > 0 {
      var all := acc + st;
      assert st[0] == all[|acc|];
      if st[0] == ".." {
        if |acc| > 0 {
          assert acc[|acc| - 1] == all[|acc| - 1];
        }
      }
      assert Step(acc, st[0], rooted) == acc + [st[0]];
      assert acc + [st[0]] + st[1..] == all;
      ResolveNormalSelf(acc + [st[0]], st[1..], rooted);
    } else {
      assert acc + st == acc;
    }
  }

  lemma ResolvedNormal(p: string)
    ensures Normal(Resolved(p), IsAbs(p))
  {
    ResolveNormal([], Strs.Split(p, '/'), IsAbs(p));
  }

  lemma {:induction false} JoinHead(st: seq<string>, sep: string)
    requires |st| >= 1 && |st[0]| >= 1
    ensures |Strs.Join(st, sep)| >= 1 && Strs.Join(st, sep)[0] == st[0][0]
  {
  }

  /** Rendering a normal stack as a rooted path and resolving it again
      gives the stack back. */
  lemma ResolveRenderRooted(st: seq<string>)
    requires Normal(st, true)
    ensures Resolved(Render(true, st)) == st
  {
    if |st| == 0 {
      ResolveRoot();
    } else {
      var c := Render(true, st);
      assert c == "" + "/" + Strs.Join(st, "/");
      Strs.SplitAppend("", '/', Strs.Join(st, "/"));
      assert Strs.Split("", '/') == [""];
      Strs.SplitJoin(st, '/');
      ResolveNormalSelf([], st, true);
      assert [] + st == st;
      assert Strs.Split(c, '/') == [""] + st;
      assert ([""] + st)[1..] == st;
    }
  }

  /** The root renders as `/`, which resolves to the empty stack. */
  lemma ResolveRoot()
    ensures Resolved(Render(true, [])) == []
  {
    var c := Render(true, []);
    assert c == "" + "/" + "";
    Strs.SplitAppend("", '/', "");
    assert Strs.Split("", '/') == [""];
    assert Strs.Split(c, '/') == ["", ""];
    assert IsAbs(c);
    assert Resolve([], ["", ""], true) == Resolve([], [""], true);
    assert Resolve([], [""], true) == Resolve([], [], true);
  }

  /** The same for a relative path, which also stays relative. */
  lemma ResolveRenderRelative(st: seq<string>)
    requires Normal(st, false)
    ensures !IsAbs(Render(false, st))
    ensures Resolved(Render(false, st)) == st
  {
    if |st| == 0 {
      assert Strs.IndexOf(".", '/') == 1;
      assert Strs.Split(".", '/') == ["."];
    } else {
      Strs.SplitJoin(st, '/');
      ResolveNormalSelf([], st, false);
      assert [] + st == st;
      JoinHead(st, "/");
    }
  }

  /** Cleaning a path gives a path whose segments resolve to the same stack,
      with the same rootedness. */
  lemma ResolvedClean(p: string)
    requires p != ""
    ensures IsAbs(Clean(p)) == IsAbs(p)
    ensures Resolved(Clean(p)) == Resolved(p)
  {
    ResolvedNormal(p);
    if IsAbs(p) {
      ResolveRenderRooted(Resolved(p));
    } else {
      ResolveRenderRelative(Resolved(p));
    }
  }

  /** Cleaning is idempotent. */
  lemma CleanIdempotent(p: string)
    ensures Clean(Clean(p)) == Clean(p)
  {
    if p == "" {
      assert Strs.IndexOf(".", '/') == 1;
      assert Strs.Split(".", '/') == ["."];
    } else {
      ResolvedClean(p);
    }
  }

  /** A cleaned path is rooted exactly when the input is, and is never empty. */
  lemma CleanAbs(p: string)
    ensures |Clean(p)| > 0
    ensures IsAbs(Clean(p)) == IsAbs(p)
  {
    if p != "" {
      ResolvedClean(p);
    }
  }

  /** `filepath.Join` of two elements: the non-empty elements joined with
      `/` and cleaned, or `""` when both are empty. */
  function Join(a: string, b: string): string
  {
    if a != "" then Clean(a + "/" + b)
    else if b != "" then Clean(b)
    else ""
  }

  /** Joining onto an absolute directory gives a clean absolute path. */
  lemma JoinAbs(a: string, b: string)
    requires IsAbs(a)
    ensures IsAbs(Join(a, b))
    ensures Clean(Join(a, b)) == Join(a, b)
  {
    CleanAbs(a + "/" + b);
    CleanIdempotent(a + "/" + b);
  }

  /** Resolution of `a/b` resolves `b`'s segments after `a`'s. */
  lemma ResolveCat(a: string, b: string, rooted: bool)
    ensures Resolve([], Strs.Split(a + "/" + b, '/'), rooted)
         == Resolve(Resolve([], Strs.Split(a, '/'), rooted), Strs.Split(b, '/'), rooted)
  {
    Strs.SplitAppend(a, '/', b);
    ResolveAppend([], Strs.Split(a, '/'), Strs.Split(b, '/'), rooted);
  }

  /** Index of the last `c` in `s`, or -1. */
  function LastIndexOf(s: string, c: char): (i: int)
    ensures -1 <= i < |s|
    ensures i >= 0 ==> s[i] == c
    ensures forall k :: i < k < |s| ==> s[k] != c
  {
    if |s| == 0 then -1
    else if s[|s| - 1] == c then |s| - 1
    else LastIndexOf(s[..|s| - 1], c)
  }

  function TrimTrailingSlashes(p: string): (q: string)
    ensures q <= p
    ensures |q| == 0 || q[|q| - 1] != '/'
    ensures forall k :: |q| <= k < |p| ==> p[k] == '/'
  {
    if |p| > 0 && p[|p| - 1] == '/' then TrimTrailingSlashes(p[..|p| - 1]) else p
  }

  /** `filepath.Base`: the last element, ignoring trailing slashes; `.` for
      the empty path and `/` for a path of slashes only. */
  function Base(p: string): (b: string)
    ensures |b| > 0
    ensures b == "/" || '/' !in b
  {
    if p == "" then "."
    else
      var q := TrimTrailingSlashes(p);
      if q == "" then "/" else q[LastIndexOf(q, '/') + 1..]
  }

  /** A single non-empty element is its own base. */
  lemma BaseOfElement(p: string)
    requires p != "" && '/' !in p
    ensures Base(p) == p
  {
    assert TrimTrailingSlashes(p) == p;
    assert LastIndexOf(p, '/') == -1;
  }

  /** `filepath.Dir`: everything up to the last slash, cleaned. */
  function Dir(p: string): string
  {
    Clean(p[..LastIndexOf(p, '/') + 1])
  }

  /** `filepath.Ext`: the suffix from the last `.` of the last element, or
      `""` when that element has no `.`. */
  function Ext(p: string): (e: string)
    ensures e == "" || (e[0] == '.' && '/' !in e && '.' !in e[1..])
    ensures |e| <= |p| && e == p[|p| - |e|..]
  {
    if |p| == 0 || p[|p| - 1] == '/' then ""
    else if p[|p| - 1] == '.' then "."
    else
      var e := Ext(p[..|p| - 1]);
      if e == "" then "" else e + [p[|p| - 1]]
  }

  /** For an absolute path without a trailing slash, the last element put
      back under its directory is the cleaned path itself. */
  lemma JoinDirBase(d: string)
    requires IsAbs(d) && d[|d| - 1] != '/'
    ensures Join(Dir(d), Base(d)) == Clean(d)
  {
    var i := LastIndexOf(d, '/');
    var x, y := d[..i], d[i + 1..];
    assert Base(d) == y;
    var u := d[..i + 1];
    assert u == x + "/" + "";
    assert d == x + "/" + y;
    assert IsAbs(u);
    CleanAbs(u);
    ResolvedClean(u);
    var dir := Dir(d);
    assert Join(dir, y) == Clean(dir + "/" + y);
    CleanAbs(dir + "/" + y);
    ResolveCat(dir, y, true);
    ResolveCat(x, "", true);
    assert Strs.Split("", '/') == [""];
    ResolveCat(x, y, true);
  }

  /** `filepath.Abs` with the working directory `cwd` given: an absolute
      path is cleaned, a relative one is joined onto `cwd`. */
  function Abs(p: string, cwd: string): string
  {
    if IsAbs(p) then Clean(p) else Join(cwd, p)
  }

  /** With an absolute working directory the result is absolute and clean. */
  lemma AbsIsAbs(p: string, cwd: string)
    requires IsAbs(cwd)
    ensures IsAbs(Abs(p, cwd))
    ensures Clean(Abs(p, cwd)) == Abs(p, cwd)
  {
    if IsAbs(p) {
      CleanAbs(p);
      CleanIdempotent(p);
    } else {
      JoinAbs(cwd, p);
    }
  }
}
