/** The dependency detector of `dependencies/parser.go`: one scanner per
    language collects package names from import syntax, maps them to
    installable names, drops standard-library names, and deduplicates
    through a map whose keys it returns in no particular order. */
module Parser {
  import opened Wrappers
  import Strs
  import opened Patterns

  const PythonStdLib: set<string> :=
    {"os", "sys", "datetime", "json", "math", "random", "re", "time", "collections", "pathlib"}

  const NodeStdLib: set<string> :=
    {"fs", "path", "http", "https", "crypto", "buffer", "stream", "util", "events", "os"}

  const GoStdLib: set<string> :=
    {"fmt", "os", "io", "strings", "time", "net/http", "encoding/json", "path/filepath"}

  /** Import names that differ from the name of their package on the index. */
  const PythonPkgMap: map<string, string> := map["PIL" := "pillow"]

  datatype Scanner = PythonScanner | NodeScanner | GoScanner

  /** The patterns each scanner runs, in the order it runs them. */
  function ScannerPatterns(sc: Scanner): seq<Pattern>
  {
    match sc
    case PythonScanner => [PyImport, PyFrom, PyDynamic]
    case NodeScanner => [NodeRequire, NodeImport, NodeDynamic]
    case GoScanner => [GoSingle, GoGroup]
  }

  function StdLib(sc: Scanner): set<string>
  {
    match sc
    case PythonScanner => PythonStdLib
    case NodeScanner => NodeStdLib
    case GoScanner => GoStdLib
  }

  /** `getBasePackage`: a scoped `@org/pkg/...` keeps its first two
      segments, anything else its first segment. */
  function GetBasePackage(path: string): string
  {
    var parts := Strs.Split(path, '/');
    if |path| > 0 && path[0] == '@' && |parts| >= 2 then Strs.Join(parts[..2], "/")
    else parts[0]
  }

  /** Which package a captured import name stands for. */
  function Package(sc: Scanner, cap: string): string
  {
    match sc
    case PythonScanner => if cap in PythonPkgMap then PythonPkgMap[cap] else cap
    case NodeScanner => GetBasePackage(cap)
    case GoScanner => cap
  }

  /** Package names that the captures `caps` contribute. */
  function Kept(sc: Scanner, caps: seq<string>): set<string>
  {
    set c | c in caps && Package(sc, c) !in StdLib(sc) :: Package(sc, c)
  }

  function KeptAll(sc: Scanner, ps: seq<Pattern>, code: string): set<string>
  {
    if |ps| == 0 then {} else Kept(sc, FindAll(ps[0], code, 0)) + KeptAll(sc, ps[1..], code)
  }

  /** Every package a scanner reports for `code`. */
  function Reported(sc: Scanner, code: string): set<string>
  {
    KeptAll(sc, ScannerPatterns(sc), code)
  }

  predicate AllTrue(m: map<string, bool>)
  {
    forall k :: k in m ==> m[k]
  }

  predicate NoDup(xs: seq<string>)
  {
    forall i, j :: 0 <= i < j < |xs| ==> xs[i] != xs[j]
  }

  /** One `for _, match := range re.FindAllStringSubmatch(code, -1)` loop:
      each capture's package is recorded unless it is in the standard
      library. */
  method Collect(sc: Scanner, imports: map<string, bool>, caps: seq<string>)
    returns (m: map<string, bool>)
    requires AllTrue(imports)
    ensures AllTrue(m)
    ensures m.Keys == imports.Keys + Kept(sc, caps)
  {
    m := imports;
    for i := 0 to |caps|
      invariant AllTrue(m)
      invariant m.Keys == imports.Keys + Kept(sc, caps[..i])
    {
      var pkg := Package(sc, caps[i]);
      CollectStep(sc, imports, caps, i, m);
      if pkg !in StdLib(sc) {
        m := m[pkg := true];
      }
    }
    assert caps[..|caps|] == caps;
  }

  /** One iteration of `Collect` extends the key set by what the next
      capture contributes. */
  lemma CollectStep(sc: Scanner, imports: map<string, bool>, caps: seq<string>, i: nat, m: map<string, bool>)
    requires i < |caps|
    requires m.Keys == imports.Keys + Kept(sc, caps[..i])
    ensures var pkg := Package(sc, caps[i]);
      (if pkg !in StdLib(sc) then m[pkg := true] else m).Keys == imports.Keys + Kept(sc, caps[..i + 1])
  {
    assert caps[..i + 1] == caps[..i] + [caps[i]];
    KeptSnoc(sc, caps[..i], caps[i]);
  }

  lemma KeptSnoc(sc: Scanner, caps: seq<string>, c: string)
    ensures Kept(sc, caps + [c])
         == Kept(sc, caps) + (if Package(sc, c) !in StdLib(sc) then {Package(sc, c)} else {})
  {
    var l, r := Kept(sc, caps + [c]), Kept(sc, caps) + (if Package(sc, c) !in StdLib(sc) then {Package(sc, c)} else {});
    forall x | x in l ensures x in r {
      var d :| d in caps + [c] && Package(sc, d) !in StdLib(sc) && x == Package(sc, d);
      if d != c { assert d in caps; }
    }
    forall x | x in r ensures x in l {
      if x in Kept(sc, caps) {
        var d :| d in caps && Package(sc, d) !in StdLib(sc) && x == Package(sc, d);
        assert d in caps + [c];
      } else {
        assert c in caps + [c];
      }
    }
  }

  /** `mapToSlice`: the keys of the map, each once, in an unspecified order. */
  method MapToSlice(m: map<string, bool>) returns (result: seq<string>)
    ensures NoDup(result)
    ensures forall k :: k in result <==> k in m
    ensures |result| == |m.Keys|
  {
    result := [];
    var rest := m.Keys;
    while rest != {}
      invariant rest <= m.Keys
      invariant NoDup(result)
      invariant forall k :: k in result <==> k in m.Keys - rest
      invariant |result| + |rest| == |m.Keys|
      decreases |rest|
    {
      var k :| k in rest;
      assert k !in result;
      result := result + [k];
      rest := rest - {k};
    }
  }

  /** The loops of a scanner, one per pattern, filling one map. */
  method CollectAll(sc: Scanner, ps: seq<Pattern>, code: string) returns (imports: map<string, bool>)
    ensures AllTrue(imports)
    ensures imports.Keys == KeptAll(sc, ps, code)
  {
    imports := map[];
    for i := 0 to |ps|
      invariant AllTrue(imports)
      invariant imports.Keys + KeptAll(sc, ps[i..], code) == KeptAll(sc, ps, code)
    {
      assert ps[i..][0] == ps[i] && ps[i..][1..] == ps[i + 1..];
      imports := Collect(sc, imports, FindAll(ps[i], code, 0));
    }
    assert ps[|ps|..] == [];
  }

  /** A scanner's loops, then `mapToSlice`. */
  method Scan(sc: Scanner, code: string) returns (deps: seq<string>)
    ensures NoDup(deps)
    ensures forall d :: d in deps <==> d in Reported(sc, code)
  {
    var imports := CollectAll(sc, ScannerPatterns(sc), code);
    deps := MapToSlice(imports);
  }

  /** `ParsePythonImports`. */
  method ParsePythonImports(code: string) returns (deps: seq<string>)
    ensures NoDup(deps)
    ensures forall d :: d in deps <==> d in Reported(PythonScanner, code)
  {
    deps := Scan(PythonScanner, code);
  }

  /** `ParseNodeImports`. */
  method ParseNodeImports(code: string) returns (deps: seq<string>)
    ensures NoDup(deps)
    ensures forall d :: d in deps <==> d in Reported(NodeScanner, code)
  {
    deps := Scan(NodeScanner, code);
  }

  /** `ParseGoImports`. */
  method ParseGoImports(code: string) returns (deps: seq<string>)
    ensures NoDup(deps)
    ensures forall d :: d in deps <==> d in Reported(GoScanner, code)
  {
    deps := Scan(GoScanner, code);
  }

  lemma {:induction false} KeptAllMember(sc: Scanner, ps: seq<Pattern>, code: string, d: string)
    requires d in KeptAll(sc, ps, code)
    ensures exists k, c :: 0 <= k < |ps| && c in FindAll(ps[k], code, 0)
                           && Package(sc, c) !in StdLib(sc) && d == Package(sc, c)
  {
    if d in Kept(sc, FindAll(ps[0], code, 0)) {
      var c :| c in FindAll(ps[0], code, 0) && Package(sc, c) !in StdLib(sc) && d == Package(sc, c);
    } else {
      KeptAllMember(sc, ps[1..], code, d);
      var k, c :| 0 <= k < |ps[1..]| && c in FindAll(ps[1..][k], code, 0)
                  && Package(sc, c) !in StdLib(sc) && d == Package(sc, c);
      assert ps[1..][k] == ps[k + 1];
    }
  }

  /** What the Python scanner reports: identifiers, after the alias table
      (so never `PIL`), outside the standard library. */
  lemma PythonReportedShape(code: string, d: string)
    requires d in Reported(PythonScanner, code)
    ensures IsWord(d) && d !in PythonStdLib && d != "PIL"
  {
    KeptAllMember(PythonScanner, ScannerPatterns(PythonScanner), code, d);
    var k, c :| 0 <= k < 3 && c in FindAll(ScannerPatterns(PythonScanner)[k], code, 0)
                && Package(PythonScanner, c) !in PythonStdLib && d == Package(PythonScanner, c);
    assert IsWord(c) by {
      var p := ScannerPatterns(PythonScanner)[k];
      var j :| 0 <= j < |FindAll(p, code, 0)| && FindAll(p, code, 0)[j] == c;
      assert CapOk(p, c);
    }
    if c in PythonPkgMap {
      PillowIsWord();
    }
  }

  lemma PillowIsWord()
    ensures IsWord("pillow")
  {
    var d := "pillow";
    forall n | 0 <= n < |d| ensures In(Word, d[n]) {
      assert d == ['p', 'i', 'l', 'l', 'o', 'w'];
    }
  }

  /** What the Node scanner reports is already a base package name, and not
      a standard-library one. */
  lemma NodeReportedShape(code: string, d: string)
    requires d in Reported(NodeScanner, code)
    ensures GetBasePackage(d) == d && d !in NodeStdLib
  {
    KeptAllMember(NodeScanner, ScannerPatterns(NodeScanner), code, d);
    var k, c :| 0 <= k < 3 && c in FindAll(ScannerPatterns(NodeScanner)[k], code, 0)
                && Package(NodeScanner, c) !in NodeStdLib && d == Package(NodeScanner, c);
    BaseIdempotent(c);
  }

  /** What the Go scanner reports is a whole quoted import path, unreduced,
      that is not a standard-library path. */
  lemma GoReportedShape(code: string, d: string)
    requires d in Reported(GoScanner, code)
    ensures |d| > 0 && '"' !in d && d !in GoStdLib
    ensures exists k :: 0 <= k < 2 && d in FindAll(ScannerPatterns(GoScanner)[k], code, 0)
  {
    KeptAllMember(GoScanner, ScannerPatterns(GoScanner), code, d);
    var k, c :| 0 <= k < 2 && c in FindAll(ScannerPatterns(GoScanner)[k], code, 0)
                && Package(GoScanner, c) !in GoStdLib && d == Package(GoScanner, c);
    var p := ScannerPatterns(GoScanner)[k];
    var j :| 0 <= j < |FindAll(p, code, 0)| && FindAll(p, code, 0)[j] == c;
    assert CapOk(p, c);
  }

  /** A name with a slash splits into at least two segments. */
  lemma SplitTwo(path: string)
    requires '/' in path
    ensures |Strs.Split(path, '/')| >= 2
    ensures Strs.Split(path, '/')[0] == path[..Strs.IndexOf(path, '/')]
  {
    var i := Strs.IndexOf(path, '/');
    assert i < |path|;
  }

  /** A scoped name `@org/pkg/...` reduces to `@org/pkg`: its first two
      segments, the first one starting with `@`. */
  lemma BaseScoped(path: string)
    requires |path| > 0 && path[0] == '@' && '/' in path
    ensures var parts := Strs.Split(path, '/');
      |parts| >= 2 && GetBasePackage(path) == parts[0] + "/" + parts[1]
      && |parts[0]| > 0 && parts[0][0] == '@'
  {
    var parts := Strs.Split(path, '/');
    SplitTwo(path);
    var two := parts[..2];
    assert two[0] == parts[0] && two[1..] == [parts[1]];
    assert Strs.Join(two[1..], "/") == parts[1];
    assert Strs.Join(two, "/") == parts[0] + "/" + parts[1];
    assert parts[0] == path[..Strs.IndexOf(path, '/')];
    assert Strs.IndexOf(path, '/') > 0;
  }

  /** Any other name reduces to its first segment, which has no slash. */
  lemma BaseUnscoped(path: string)
    requires !(|path| > 0 && path[0] == '@' && '/' in path)
    ensures GetBasePackage(path) == Strs.Split(path, '/')[0]
    ensures '/' !in GetBasePackage(path)
  {
    if |path| > 0 && path[0] == '@' {
      Strs.SplitNoSep(path, '/');
    }
  }

  /** `getBasePackage` returns a prefix of its input. */
  lemma BasePrefix(path: string)
    ensures GetBasePackage(path) <= path
  {
    var parts := Strs.Split(path, '/');
    if |path| > 0 && path[0] == '@' && '/' in path {
      BaseScoped(path);
      assert parts == [parts[0], parts[1]] + parts[2..];
      if |parts| > 2 {
        Strs.JoinAppend([parts[0], parts[1]], parts[2..], "/");
      }
      assert [parts[0], parts[1]][1..] == [parts[1]];
    } else {
      BaseUnscoped(path);
      Strs.JoinFirstPrefix(parts, "/");
    }
  }

  /** Reducing a reduced name changes nothing. */
  lemma BaseIdempotent(path: string)
    ensures GetBasePackage(GetBasePackage(path)) == GetBasePackage(path)
  {
    var base := GetBasePackage(path);
    if |path| > 0 && path[0] == '@' && '/' in path {
      BaseScoped(path);
      var parts := Strs.Split(path, '/');
      var org, pkg := parts[0], parts[1];
      assert [org, pkg][1..] == [pkg];
      assert Strs.Join([org, pkg], "/") == base;
      Strs.SplitJoin([org, pkg], '/');
      assert '/' in base by { assert base[|org|] == '/'; }
      assert base[0] == '@';
      BaseScoped(base);
    } else {
      BaseUnscoped(path);
      Strs.SplitNoSep(base, '/');
    }
  }

  /** Node applies the standard-library filter to the reduced name, so a
      submodule of a built-in module (`fs/promises`) is dropped as well. */
  lemma StdSubmoduleDropped(m: string, sub: string)
    requires m in NodeStdLib
    ensures Package(NodeScanner, m + "/" + sub) == m
    ensures Package(NodeScanner, m + "/" + sub) in NodeStdLib
  {
    NodeStdLibPlain(m);
    var p := m + "/" + sub;
    assert p == m + ['/'] + sub;
    assert p[0] == m[0];
    Strs.IndexOfJoined(m, '/', sub);
    BaseUnscoped(p);
    Strs.SplitHead(p, '/');
    assert p[..|m|] == m;
  }

  /** Every built-in Node module name is a plain, unscoped segment. */
  lemma NodeStdLibPlain(m: string)
    requires m in NodeStdLib
    ensures |m| > 0 && m[0] != '@' && '/' !in m
  {
  }

  /** The scanner's first match in a module starting `from PIL import`. */
  lemma FromPilMatch(t: string)
    ensures MatchAt(PyFrom, "from PIL import" + t, 0) == Some(Hit(15, "PIL"))
  {
    var s := "from PIL import" + t;
    assert s[0..4] == "from";
    RunReaches(s, 4, 5, Space);
    RunReaches(s, 5, 8, Word);
    RunReaches(s, 8, 9, Space);
    assert s[9..15] == "import";
    assert s[5..8] == "PIL";
  }

  /** The alias table is applied before the standard-library filter:
      `from PIL import Image` reports `pillow`. */
  lemma FromPilReportsPillow(t: string)
    ensures "pillow" in Reported(PythonScanner, "from PIL import" + t)
  {
    var s := "from PIL import" + t;
    var caps := FindAll(PyFrom, s, 0);
    assert "PIL" in caps by {
      FromPilMatch(t);
      assert caps == ["PIL"] + FindAll(PyFrom, s, 15);
    }
    assert "pillow" in Kept(PythonScanner, caps) by {
      assert Package(PythonScanner, "PIL") == "pillow";
    }
    var ps := ScannerPatterns(PythonScanner);
    assert ps[1..][0] == PyFrom;
    assert Reported(PythonScanner, s) == Kept(PythonScanner, FindAll(PyImport, s, 0)) + KeptAll(PythonScanner, ps[1..], s);
    assert KeptAll(PythonScanner, ps[1..], s) == Kept(PythonScanner, caps) + KeptAll(PythonScanner, ps[2..], s);
  }

  /** Captures that are all empty lists contribute nothing. */
  lemma KeptNone(sc: Scanner)
    ensures Kept(sc, []) == {}
  {
  }

  /** When every line is a comment, only `__import__(...)` calls, whose
      pattern is not anchored, can contribute. */
  lemma CommentedPython(code: string)
    requires AllCommented(code)
    ensures Reported(PythonScanner, code) == Kept(PythonScanner, FindAll(PyDynamic, code, 0))
  {
    CommentedFindsNothing(PyImport, code, 0);
    CommentedFindsNothing(PyFrom, code, 0);
    KeptNone(PythonScanner);
    var ps := ScannerPatterns(PythonScanner);
    assert ps[1..][0] == PyFrom && ps[1..][1..] == [PyDynamic];
    assert [PyDynamic][1..] == [];
    assert KeptAll(PythonScanner, [PyDynamic], code) == Kept(PythonScanner, FindAll(PyDynamic, code, 0));
    assert KeptAll(PythonScanner, ps[1..], code) == Kept(PythonScanner, FindAll(PyDynamic, code, 0));
  }

  /** A quoted path containing `/`, named, dotted or bare, is reported whole
      when it is not a standard-library path. */
  lemma GoNamedImportReported(w: string, path: string, rest: string)
    requires forall k :: 0 <= k < |w| ==> w[k] != '/' && w[k] != '"'
    requires forall k :: 0 <= k < |path| ==> path[k] != '"'
    requires '/' in path && path !in GoStdLib
    ensures path in Reported(GoScanner, w + "\"" + path + "\"" + rest)
  {
    var line := w + "\"" + path + "\"";
    var s := line + rest;
    assert path in FindAll(GoGroup, s, 0) by {
      assert s[0..|line|] == line;
      GoQuotedPathFound(s, 0, w, path);
    }
    GroupCaptureReported(s, path);
  }

  /** Every capture of the grouped-import pattern outside the standard
      library is reported as it is. */
  lemma GroupCaptureReported(s: string, c: string)
    requires c in FindAll(GoGroup, s, 0) && c !in GoStdLib
    ensures c in Reported(GoScanner, s)
  {
    assert c in Kept(GoScanner, FindAll(GoGroup, s, 0)) by {
      assert Package(GoScanner, c) == c;
    }
    var ps := ScannerPatterns(GoScanner);
    assert ps[1..] == [GoGroup] && [GoGroup][1..] == [];
    assert KeptAll(GoScanner, ps[1..], s) == Kept(GoScanner, FindAll(GoGroup, s, 0));
  }
}
