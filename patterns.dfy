/** The eight regular expressions of the dependency detector, each as a
    recogniser: `MatchAt` gives the match RE2's leftmost-first semantics
    picks at a given start (end and first capture group), and `FindAll` scans
    left to right for non-overlapping matches, as `FindAllStringSubmatch(s, -1)`
    does.  All eight patterns match only non-empty text, so a scan resumes
    at the end of each match.  Character classes follow RE2's Perl flags:
    `\s` is `[\t\n\f\r ]`, `\w` is ASCII `[0-9A-Za-z_]`, and negated classes
    such as `[^/]` also match a newline. */
module Patterns {
  import opened Wrappers

  datatype Pattern =
    | PyImport     // (?m)^import\s+(\w+)
    | PyFrom       // (?m)^from\s+(\w+)\s+import
    | PyDynamic    // __import__\(['"](\w+)['"]\)
    | NodeRequire  // (?m)require\(['"]([^'"]+)['"]\)
    | NodeImport   // (?m)import\s+(?:\{[^}]*\}|\*\s+as\s+\w+|\w+)\s+from\s+['"]([^'"]+)['"]
    | NodeDynamic  // (?m)import\(['"]([^'"]+)['"]\)
    | GoSingle     // (?m)^import\s+"([^"]+)"
    | GoGroup      // (?m)^[^/]*"([^"]+)"

  /** A match: where it ends, and what its first group captured. */
  datatype Hit = Hit(end: nat, cap: string)

  datatype Class = Space | Word | NotQuote | NotDQuote | NotBrace | NotSlash

  predicate In(cls: Class, c: char)
  {
    match cls
    case Space => c == '\t' || c == '\n' || c == '\U{0C}' || c == '\r' || c == ' '
    case Word => ('a' <= c <= 'z') || ('A' <= c <= 'Z') || ('0' <= c <= '9') || c == '_'
    case NotQuote => c != '\'' && c != '"'
    case NotDQuote => c != '"'
    case NotBrace => c != '}'
    case NotSlash => c != '/'
  }

  predicate IsWord(s: string)
  {
    |s| > 0 && forall k :: 0 <= k < |s| ==> In(Word, s[k])
  }

  predicate Quote(s: string, i: nat)
  {
    i < |s| && (s[i] == '\'' || s[i] == '"')
  }

  /** End of the longest run of `cls` characters starting at `i`. */
  function Run(s: string, i: nat, cls: Class): (j: nat)
    requires i <= |s|
    ensures i <= j <= |s|
    ensures forall k :: i <= k < j ==> In(cls, s[k])
    ensures j < |s| ==> !In(cls, s[j])
    decreases |s| - i
  {
    if i < |s| && In(cls, s[i]) then Run(s, i + 1, cls) else i
  }

  /** `s` holds the literal `w` at `i`. */
  predicate Lit(s: string, i: nat, w: string)
  {
    i + |w| <= |s| && s[i..i + |w|] == w
  }

  /** `(?m)^` holds at `i`. */
  predicate LineStart(s: string, i: nat)
  {
    i == 0 || (i <= |s| && s[i - 1] == '\n')
  }

  function MatchPyImport(s: string, i: nat): (r: Option<Hit>)
    requires i <= |s|
    ensures r.Some? ==> i < r.value.end <= |s| && IsWord(r.value.cap) && LineStart(s, i)
  {
    if !LineStart(s, i) || !Lit(s, i, "import") then None
    else
      var b := Run(s, i + 6, Space);
      var c := Run(s, b, Word);
      if b == i + 6 || c == b then None else Some(Hit(c, s[b..c]))
  }

  function MatchPyFrom(s: string, i: nat): (r: Option<Hit>)
    requires i <= |s|
    ensures r.Some? ==> i < r.value.end <= |s| && IsWord(r.value.cap) && LineStart(s, i)
  {
    if !LineStart(s, i) || !Lit(s, i, "from") then None
    else
      var b := Run(s, i + 4, Space);
      var c := Run(s, b, Word);
      var d := Run(s, c, Space);
      if b == i + 4 || c == b || d == c || !Lit(s, d, "import") then None
      else Some(Hit(d + 6, s[b..c]))
  }

  function MatchPyDynamic(s: string, i: nat): (r: Option<Hit>)
    requires i <= |s|
    ensures r.Some? ==> i < r.value.end <= |s| && IsWord(r.value.cap)
  {
    if !Lit(s, i, "__import__(") || !Quote(s, i + 11) then None
    else
      var c := Run(s, i + 12, Word);
      if c == i + 12 || !Quote(s, c) || !Lit(s, c + 1, ")") then None
      else Some(Hit(c + 2, s[i + 12..c]))
  }

  /** `lead(['"]([^'"]+)['"]\)`, shared by `require(` and `import(`. */
  function MatchCall(s: string, i: nat, lead: string): (r: Option<Hit>)
    requires i <= |s|
    ensures r.Some? ==> i < r.value.end <= |s| && CapOk(NodeRequire, r.value.cap)
  {
    var a := i + |lead|;
    if !Lit(s, i, lead) || !Quote(s, a) then None
    else
      var c := Run(s, a + 1, NotQuote);
      if c == a + 1 || c == |s| || !Lit(s, c + 1, ")") then None
      else Some(Hit(c + 2, s[a + 1..c]))
  }

  /** End of the binding between `import` and `from`: a `{...}` list, a
      `* as name`, or a name; the alternatives start with different
      characters, so at most one can apply. */
  function NodeBinding(s: string, b: nat): Option<nat>
    requires b <= |s|
  {
    if b < |s| && s[b] == '{' then
      var r := Run(s, b + 1, NotBrace);
      if r < |s| then Some(r + 1) else None
    else if b < |s| && s[b] == '*' then
      var d := Run(s, b + 1, Space);
      if d == b + 1 || !Lit(s, d, "as") then None
      else
        var e := Run(s, d + 2, Space);
        var f := Run(s, e, Word);
        if e == d + 2 || f == e then None else Some(f)
    else
      var f := Run(s, b, Word);
      if f == b then None else Some(f)
  }

  function MatchNodeImport(s: string, i: nat): (r: Option<Hit>)
    requires i <= |s|
    ensures r.Some? ==> i < r.value.end <= |s| && CapOk(NodeImport, r.value.cap)
  {
    if !Lit(s, i, "import") then None
    else
      var b := Run(s, i + 6, Space);
      if b == i + 6 then None
      else match NodeBinding(s, b)
        case None => None
        case Some(c) =>
          var g := Run(s, c, Space);
          if g == c || !Lit(s, g, "from") then None
          else
            var h := Run(s, g + 4, Space);
            if h == g + 4 || !Quote(s, h) then None
            else
              var k := Run(s, h + 1, NotQuote);
              if k == h + 1 || k == |s| then None
              else Some(Hit(k + 1, s[h + 1..k]))
  }

  function MatchGoSingle(s: string, i: nat): (r: Option<Hit>)
    requires i <= |s|
    ensures r.Some? ==> i < r.value.end <= |s| && CapOk(GoSingle, r.value.cap) && LineStart(s, i)
  {
    if !LineStart(s, i) || !Lit(s, i, "import") then None
    else
      var b := Run(s, i + 6, Space);
      if b == i + 6 || b == |s| || s[b] != '"' then None
      else
        var c := Run(s, b + 1, NotDQuote);
        if c == b + 1 || c == |s| then None else Some(Hit(c + 1, s[b + 1..c]))
  }

  /** A `"([^"]+)"` match starting at `k`: the end of its non-empty body. */
  function QuotedAt(s: string, k: nat): Option<nat>
    requires k <= |s|
  {
    if k == |s| || s[k] != '"' then None
    else
      var r := Run(s, k + 1, NotDQuote);
      if r == k + 1 || r == |s| then None else Some(r)
  }

  /** The greedy `[^/]*` gives characters back one at a time, so the quote
      that opens the group is the LAST one before `k` that can. */
  function LastQuoted(s: string, i: nat, k: nat): (r: Option<nat>)
    requires i <= k <= |s|
    ensures r.Some? ==> i <= r.value < k && QuotedAt(s, r.value).Some?
    ensures r.None? ==> forall j :: i <= j < k ==> QuotedAt(s, j).None?
    decreases k - i
  {
    if k == i then None
    else if QuotedAt(s, k - 1).Some? then Some(k - 1)
    else LastQuoted(s, i, k - 1)
  }

  function MatchGoGroup(s: string, i: nat): (r: Option<Hit>)
    requires i <= |s|
    ensures r.Some? ==> i < r.value.end <= |s| && CapOk(GoGroup, r.value.cap) && LineStart(s, i)
  {
    if !LineStart(s, i) then None
    else
      var q := Run(s, i, NotSlash);
      match LastQuoted(s, i, q)
      case None => None
      case Some(k) =>
        var r := QuotedAt(s, k).value;
        Some(Hit(r + 1, s[k + 1..r]))
  }

  /** Which captures a pattern can produce. */
  predicate CapOk(p: Pattern, cap: string)
  {
    match p
    case PyImport => IsWord(cap)
    case PyFrom => IsWord(cap)
    case PyDynamic => IsWord(cap)
    case GoSingle => |cap| > 0 && '"' !in cap
    case GoGroup => |cap| > 0 && '"' !in cap
    case _ => |cap| > 0 && '"' !in cap && '\'' !in cap
  }

  predicate Anchored(p: Pattern)
  {
    p == PyImport || p == PyFrom || p == GoSingle || p == GoGroup
  }

  /** The match of `p` starting exactly at `i`, if any.  A match is
      non-empty, its capture has the pattern's shape, and an anchored
      pattern matches only at the start of a line. */
  function MatchAt(p: Pattern, s: string, i: nat): (r: Option<Hit>)
    requires i <= |s|
    ensures r.Some? ==> i < r.value.end <= |s| && CapOk(p, r.value.cap)
    ensures r.Some? && Anchored(p) ==> LineStart(s, i)
  {
    match p
    case PyImport => MatchPyImport(s, i)
    case PyFrom => MatchPyFrom(s, i)
    case PyDynamic => MatchPyDynamic(s, i)
    case NodeRequire => MatchCall(s, i, "require(")
    case NodeImport => MatchNodeImport(s, i)
    case NodeDynamic => MatchCall(s, i, "import(")
    case GoSingle => MatchGoSingle(s, i)
    case GoGroup => MatchGoGroup(s, i)
  }

  /** `FindAllStringSubmatch(s[pos..], -1)`, first groups only: the leftmost
      match at or after `pos`, then the scan resumes where it ended. */
  function FindAll(p: Pattern, s: string, pos: nat): (caps: seq<string>)
    requires pos <= |s|
    ensures forall k :: 0 <= k < |caps| ==> CapOk(p, caps[k])
    decreases |s| - pos
  {
    if pos == |s| then []
    else match MatchAt(p, s, pos)
      case Some(h) => [h.cap] + FindAll(p, s, h.end)
      case None => FindAll(p, s, pos + 1)
  }

  /** Past the last line start, an anchored pattern finds nothing. */
  lemma {:induction false} NoLineStartNoMatch(p: Pattern, s: string, pos: nat)
    requires Anchored(p) && 0 < pos <= |s|
    requires forall k :: pos - 1 <= k < |s| ==> s[k] != '\n'
    ensures FindAll(p, s, pos) == []
    decreases |s| - pos
  {
    if pos < |s| {
      assert !LineStart(s, pos);
      NoLineStartNoMatch(p, s, pos + 1);
    }
  }

  /** Every line of `s` starts with `#`. */
  predicate AllCommented(s: string)
  {
    forall k :: 0 <= k < |s| && LineStart(s, k) ==> s[k] == '#'
  }

  /** Commented-out Python imports are not found: the Python patterns are
      anchored at line starts, where `import` and `from` cannot begin. */
  lemma {:induction false} CommentedFindsNothing(p: Pattern, s: string, pos: nat)
    requires p == PyImport || p == PyFrom
    requires AllCommented(s) && pos <= |s|
    ensures FindAll(p, s, pos) == []
    decreases |s| - pos
  {
    if pos < |s| {
      if LineStart(s, pos) {
        assert s[pos] == '#';
        LitHead(s, pos, "import");
        LitHead(s, pos, "from");
      }
      assert MatchAt(p, s, pos).None?;
      CommentedFindsNothing(p, s, pos + 1);
    }
  }

  lemma LitHead(s: string, i: nat, w: string)
    requires |w| > 0
    ensures Lit(s, i, w) ==> s[i] == w[0]
  {
    if Lit(s, i, w) {
      assert s[i..i + |w|][0] == s[i];
    }
  }

  /** `import a, b` on one line yields only `a`: `\w+` stops at the comma
      and the anchored pattern cannot match again on the same line. */
  lemma ImportListFirstOnly(a: string, t: string)
    requires IsWord(a)
    requires |t| == 0 || !In(Word, t[0])
    requires forall k :: 0 <= k < |t| ==> t[k] != '\n'
    ensures FindAll(PyImport, "import " + a + t, 0) == [a]
  {
    var s := "import " + a + t;
    assert Lit(s, 0, "import") by { assert s[0..6] == "import"; }
    assert Run(s, 6, Space) == 7 by {
      assert s[6] == ' ';
      assert 7 == |s| || s[7] == a[0];
    }
    var c := Run(s, 7, Word);
    assert c == 7 + |a| by {
      forall k | 7 <= k < 7 + |a| ensures In(Word, s[k]) {
        assert s[k] == a[k - 7];
      }
      RunReaches(s, 7, 7 + |a|, Word);
      if 7 + |a| < |s| { assert s[7 + |a|] == t[0]; }
    }
    assert s[7..c] == a;
    assert MatchAt(PyImport, s, 0) == Some(Hit(c, a));
    if c < |s| {
      forall k | c - 1 <= k < |s| ensures s[k] != '\n' {
        if k == c - 1 { assert s[k] == a[|a| - 1]; } else { assert s[k] == t[k - c]; }
      }
      NoLineStartNoMatch(PyImport, s, c);
    }
  }

  /** A run over characters of the class reaches at least as far. */
  lemma {:induction false} RunReaches(s: string, i: nat, j: nat, cls: Class)
    requires i <= j <= |s|
    requires forall k :: i <= k < j ==> In(cls, s[k])
    requires j == |s| || !In(cls, s[j])
    ensures Run(s, i, cls) == j
    decreases j - i
  {
    if i < j {
      RunReaches(s, i + 1, j, cls);
    }
  }

  /** A Go line whose first `/` comes before any `"` (such as a `//`
      comment) does not start a match. */
  lemma GoSlashFirst(s: string, i: nat, j: nat)
    requires i <= j < |s| && s[j] == '/'
    requires forall k :: i <= k < j ==> s[k] != '"'
    ensures MatchAt(GoGroup, s, i).None?
  {
    var q := Run(s, i, NotSlash);
    assert q <= j;
  }

  /** A quoted import path holding a `/`, after any prefix without `/` or
      `"` on its line (an alias `name ` or a dot `. `), is found whole. */
  lemma GoQuotedPathFound(s: string, i: nat, w: string, path: string)
    requires LineStart(s, i)
    requires i + |w| + |path| + 2 <= |s|
    requires s[i..i + |w| + |path| + 2] == w + "\"" + path + "\""
    requires forall k :: 0 <= k < |w| ==> w[k] != '/' && w[k] != '"'
    requires forall k :: 0 <= k < |path| ==> path[k] != '"'
    requires '/' in path
    ensures MatchAt(GoGroup, s, i) == Some(Hit(i + |w| + |path| + 2, path))
  {
    var o := i + |w|;
    var e := o + |path| + 1;
    QuoteFacts(s, i, w, path);
    LastQuotedSkips(s, i, o, Run(s, i, NotSlash));
    GroupMatch(s, i, o, e);
  }

  /** What the text `w"path"` at `i` gives the pieces of the group match:
      the run of non-slashes stops inside the path, and the quote before
      the path opens a quoted body that is the path. */
  lemma QuoteFacts(s: string, i: nat, w: string, path: string)
    requires i + |w| + |path| + 2 <= |s|
    requires s[i..i + |w| + |path| + 2] == w + "\"" + path + "\""
    requires forall k :: 0 <= k < |w| ==> w[k] != '/' && w[k] != '"'
    requires forall k :: 0 <= k < |path| ==> path[k] != '"'
    requires '/' in path
    ensures var o, e := i + |w|, i + |w| + |path| + 1;
      o < Run(s, i, NotSlash) < e && QuotedAt(s, o) == Some(e) && s[o + 1..e] == path
      && forall k :: o < k < Run(s, i, NotSlash) ==> s[k] != '"'
  {
    var o := i + |w|;
    var e := o + |path| + 1;
    var t := w + "\"" + path + "\"";
    assert s[o] == '"' by { SliceAt(s, i, t, |w|); }
    QuotedBody(s, i, w, path);
    var q := Run(s, i, NotSlash);
    assert o < q < e by {
      forall k | i <= k < o ensures s[k] != '/' {
        SliceAt(s, i, t, k - i);
      }
      var m :| 0 <= m < |path| && path[m] == '/';
      assert s[o + 1 + m] == '/';
    }
    assert QuotedAt(s, o) == Some(e) by {
      SliceAt(s, i, t, |w| + |path| + 1);
      RunReaches(s, o + 1, e, NotDQuote);
    }
    assert s[o + 1..e] == path;
  }

  /** The group match is decided by the last usable quote before the first `/`. */
  lemma GroupMatch(s: string, i: nat, o: nat, e: nat)
    requires LineStart(s, i) && i <= |s|
    requires LastQuoted(s, i, Run(s, i, NotSlash)) == Some(o)
    requires QuotedAt(s, o) == Some(e)
    ensures o < e
    ensures MatchAt(GoGroup, s, i) == Some(Hit(e + 1, s[o + 1..e]))
  {
  }

  /** Between the quotes stand the characters of the path. */
  lemma QuotedBody(s: string, i: nat, w: string, path: string)
    requires i + |w| + |path| + 2 <= |s|
    requires s[i..i + |w| + |path| + 2] == w + "\"" + path + "\""
    requires forall k :: 0 <= k < |path| ==> path[k] != '"'
    ensures forall k :: i + |w| < k < i + |w| + |path| + 1 ==> s[k] == path[k - i - |w| - 1] && s[k] != '"'
  {
    forall k | i + |w| < k < i + |w| + |path| + 1 ensures s[k] == path[k - i - |w| - 1] {
      SliceAt(s, i, w + "\"" + path + "\"", k - i);
    }
  }

  /** A slice equal to `t` holds `t`'s characters at the same offsets. */
  lemma SliceAt(s: string, i: nat, t: string, k: nat)
    requires i + |t| <= |s| && s[i..i + |t|] == t && k < |t|
    ensures s[i + k] == t[k]
  {
    assert s[i..i + |t|][k] == s[i + k];
  }

  /** The search for the last usable quote passes over positions without one. */
  lemma {:induction false} LastQuotedSkips(s: string, i: nat, o: nat, q: nat)
    requires i <= o < q <= |s|
    requires QuotedAt(s, o).Some?
    requires forall k :: o < k < q ==> s[k] != '"'
    ensures LastQuoted(s, i, q) == Some(o)
    decreases q - o
  {
    if q - 1 > o {
      assert QuotedAt(s, q - 1).None?;
      LastQuotedSkips(s, i, o, q - 1);
    }
  }
}
