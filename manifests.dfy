/** Running inline code with its dependencies (`dependencies/docker.go`):
    the per-language setup table, the three manifest generators, the
    container command, and the host and engine steps of
    `RunWithDependencies`. */
module Manifests {
  import opened Wrappers
  import Strs
  import Paths
  import Utf8
  import opened Engine
  import Languages

  /** How a language's manifest text is generated from the dependencies. */
  datatype Generator = Lines | PackageMap | GoModule

  /** One entry of the setup table: image, install command, source file
      extension, run command and manifest generator. */
  datatype Setup = Setup(image: string, installCommand: string, fileExtension: string,
                         runCommand: seq<string>, gen: Generator)

  /** The setup table, keyed by the same three tags as the registry; any
      other tag has no entry (Go's zero value, whose generator is nil). */
  function SetupOf(lang: string): Option<Setup>
  {
    if lang == Languages.Python then Some(Setup("python:3.12-slim-bookworm", "pip install", ".py", ["python", "-c"], Lines))
    else if lang == Languages.NodeJS then Some(Setup("node:23-slim", "npm install --no-save", ".js", ["node", "-e"], PackageMap))
    else if lang == Languages.Go then Some(Setup("golang:1.21-alpine", "go get", ".go", ["go", "run"], GoModule))
    else None
  }

  // ---------------------------------------------------------------------
  // The Python generator: one dependency per line.

  function Requirements(deps: seq<string>): string
  {
    Strs.Join(deps, "\n")
  }

  /** The requirements text has exactly the dependencies as its lines, in
      order, and no trailing line break after the last one. */
  lemma RequirementsLines(deps: seq<string>)
    requires |deps| >= 1 && forall k :: 0 <= k < |deps| ==> '\n' !in deps[k]
    ensures Strs.Split(Requirements(deps), '\n') == deps
    ensures deps[|deps| - 1] != "" ==> Requirements(deps)[|Requirements(deps)| - 1] != '\n'
  {
    Strs.SplitJoin(deps, '\n');
    var parts := Strs.Split(Requirements(deps), '\n');
    var r := Requirements(deps);
    if deps[|deps| - 1] != "" {
      LastPartEnds(deps, "\n");
    }
  }

  /** A join ends with its last part. */
  lemma {:induction false} LastPartEnds(parts: seq<string>, sep: string)
    requires |parts| >= 1 && parts[|parts| - 1] != ""
    ensures var j := Strs.Join(parts, sep); var last := parts[|parts| - 1];
      |j| >= |last| && j[|j| - |last|..] == last
    decreases |parts|
  {
    if |parts| > 1 {
      LastPartEnds(parts[1..], sep);
      var rest := Strs.Join(parts[1..], sep);
      assert Strs.Join(parts, sep) == (parts[0] + sep) + rest;
    }
  }

  // ---------------------------------------------------------------------
  // The Go generator: a `go.mod` requiring every dependency at `latest`.

  const ModuleHead: string := "module sandbox\n\ngo 1.21\n\nrequire (\n\t"
  const ModuleTail: string := "\n)\n"

  function GoMod(deps: seq<string>): string
  {
    ModuleHead + (Strs.Join(deps, " latest\n\t") + " latest") + ModuleTail
  }

  /** The require lines, each dependency followed by ` latest`. */
  function Latest(deps: seq<string>): (lines: seq<string>)
    ensures |lines| == |deps|
  {
    seq(|deps|, k requires 0 <= k < |deps| => deps[k] + " latest")
  }

  /** Joining with ` latest\n\t` and appending ` latest` is joining the
      require lines with `\n\t`. */
  lemma {:induction false} JoinLatest(deps: seq<string>)
    requires |deps| >= 1
    ensures Strs.Join(deps, " latest\n\t") + " latest" == Strs.Join(Latest(deps), "\n\t")
    decreases |deps|
  {
    if |deps| > 1 {
      JoinLatest(deps[1..]);
      assert Latest(deps)[1..] == Latest(deps[1..]);
      var rest := Strs.Join(deps[1..], " latest\n\t");
      calc {
        Strs.Join(deps, " latest\n\t") + " latest";
        (deps[0] + " latest\n\t" + rest) + " latest";
        (deps[0] + " latest") + "\n\t" + (rest + " latest");
      }
    }
  }

  /** Every dependency gets its own `\t<dep> latest` line inside the
      require block; with no dependencies the block still holds one bare
      ` latest` line. */
  lemma GoModLines(deps: seq<string>)
    ensures |deps| >= 1 ==> GoMod(deps) == ModuleHead + Strs.Join(Latest(deps), "\n\t") + ModuleTail
    ensures |deps| == 0 ==> GoMod(deps) == "module sandbox\n\ngo 1.21\n\nrequire (\n\t latest\n)\n"
  {
    if |deps| >= 1 {
      JoinLatest(deps);
    }
  }

  // ---------------------------------------------------------------------
  // The Node generator: a map from every dependency to `latest`, printed
  // with `%s`, which writes `map[k:v k:v]` with the keys in sorted order
  // rather than JSON.

  /** The map the Node generator fills. */
  function DependencyMap(deps: seq<string>): (m: map<string, string>)
    ensures forall d :: d in m <==> d in deps
    ensures forall d :: d in m ==> m[d] == "latest"
  {
    map d | d in deps :: "latest"
  }

  /** The generator's loop: one assignment per dependency, a repeated one
      overwriting the same key. */
  method FillDependencies(deps: seq<string>) returns (m: map<string, string>)
    ensures m == DependencyMap(deps)
  {
    m := map[];
    for i := 0 to |deps|
      invariant m == map d | d in deps[..i] :: "latest"
    {
      assert deps[..i + 1] == deps[..i] + [deps[i]];
      m := m[deps[i] := "latest"];
    }
    assert deps[..|deps|] == deps;
  }

  /** Strictly increasing in Go's string order: sorted, no repeats. */
  predicate StrictlySorted(s: seq<string>)
  {
    forall i, j :: 0 <= i < j < |s| ==> Strs.LexLess(s[i], s[j])
  }

  /** Insert `x` into a sorted list unless it is already there. */
  function Insert(x: string, s: seq<string>): seq<string>
    decreases |s|
  {
    if |s| == 0 then [x]
    else if x == s[0] then s
    else if Strs.LexLess(x, s[0]) then [x] + s
    else [s[0]] + Insert(x, s[1..])
  }

  /** The keys `fmt` prints, in order: the distinct dependencies sorted. */
  function SortedKeys(deps: seq<string>): seq<string>
    decreases |deps|
  {
    if |deps| == 0 then [] else Insert(deps[|deps| - 1], SortedKeys(deps[..|deps| - 1]))
  }

  lemma {:induction false} InsertSorted(x: string, s: seq<string>)
    requires StrictlySorted(s)
    ensures StrictlySorted(Insert(x, s))
    ensures forall y :: y in Insert(x, s) <==> y == x || y in s
    decreases |s|
  {
    if |s| == 0 || x == s[0] {
    } else if Strs.LexLess(x, s[0]) {
      forall j | 0 <= j < |s|
        ensures Strs.LexLess(x, s[j])
      {
        if j > 0 { Strs.LexLessTransitive(x, s[0], s[j]); }
      }
    } else {
      Strs.LexLessTotal(x, s[0]);
      InsertSorted(x, s[1..]);
      var r := Insert(x, s[1..]);
      forall y | y in r
        ensures Strs.LexLess(s[0], y)
      {
      }
    }
  }

  lemma {:induction false} SortedKeysSorted(deps: seq<string>)
    ensures StrictlySorted(SortedKeys(deps))
    ensures forall y :: y in SortedKeys(deps) <==> y in deps
    decreases |deps|
  {
    if |deps| > 0 {
      var init := deps[..|deps| - 1];
      SortedKeysSorted(init);
      InsertSorted(deps[|deps| - 1], SortedKeys(init));
      assert deps == init + [deps[|deps| - 1]];
    }
  }

  /** Two strictly sorted lists with the same elements are the same list. */
  lemma {:induction false} SortedUnique(a: seq<string>, b: seq<string>)
    requires StrictlySorted(a) && StrictlySorted(b)
    requires forall y :: y in a <==> y in b
    ensures a == b
    decreases |a|
  {
    if |a| > 0 && |b| > 0 {
      assert a[0] in a && b[0] in b;
      if a[0] != b[0] {
        var j :| 0 <= j < |b| && b[j] == a[0];
        var k :| 0 <= k < |a| && a[k] == b[0];
        Strs.LexLessAsymmetric(b[0], a[0]);
        assert false;
      }
      forall y
        ensures y in a[1..] <==> y in b[1..]
      {
        TailMember(a, b, y);
        TailMember(b, a, y);
      }
      SortedUnique(a[1..], b[1..]);
      assert a == [a[0]] + a[1..] && b == [b[0]] + b[1..];
    } else {
      SameEmptiness(a, b);
    }
  }

  /** Lists with the same elements are empty together. */
  lemma SameEmptiness(a: seq<string>, b: seq<string>)
    requires forall y :: y in a <==> y in b
    ensures |a| == 0 <==> |b| == 0
  {
    if |a| > 0 {
      assert a[0] in a;
    }
    if |b| > 0 {
      assert b[0] in b;
    }
  }

  /** In two sorted lists with the same elements and the same head, an
      element of the first tail is in the second tail. */
  lemma TailMember(a: seq<string>, b: seq<string>, y: string)
    requires StrictlySorted(a) && StrictlySorted(b) && |a| > 0 && |b| > 0 && a[0] == b[0]
    requires forall z :: z in a <==> z in b
    ensures y in a[1..] ==> y in b[1..]
  {
    if y in a[1..] {
      var i :| 1 <= i < |a| && a[i] == y;
      assert y in a;
      var j :| 0 <= j < |b| && b[j] == y;
      if j == 0 {
        Strs.LexLessIrreflexive(a[0]);
        assert false;
      }
      assert b[1..][j - 1] == y;
    }
  }

  /** `%s` of a `map[string]string`, given its keys in sorted order. */
  function MapText(m: map<string, string>, keys: seq<string>): string
    requires forall k :: 0 <= k < |keys| ==> keys[k] in m
  {
    "map[" + Strs.Join(seq(|keys|, k requires 0 <= k < |keys| => keys[k] + ":" + m[keys[k]]), " ") + "]"
  }

  function PackageJson(deps: seq<string>): string
  {
    var keys := SortedKeys(deps);
    SortedKeysSorted(deps);
    "{\"dependencies\":" + MapText(DependencyMap(deps), keys) + "}"
  }

  /** The Node manifest depends only on which dependencies there are: not
      on their order, nor on repetitions. */
  lemma PackageJsonOrderFree(a: seq<string>, b: seq<string>)
    requires forall d :: d in a <==> d in b
    ensures PackageJson(a) == PackageJson(b)
  {
    SortedKeysSorted(a);
    SortedKeysSorted(b);
    SortedUnique(SortedKeys(a), SortedKeys(b));
    assert DependencyMap(a) == DependencyMap(b);
  }

  /** The Node manifest lists each distinct dependency once, as
      `dep:latest`, in increasing order, inside a `map[...]` that is not
      JSON. */
  lemma PackageJsonEntries(deps: seq<string>)
    ensures var keys := SortedKeys(deps);
      && StrictlySorted(keys) && (forall d :: d in keys <==> d in deps)
      && PackageJson(deps)
         == "{\"dependencies\":map[" + Strs.Join(seq(|keys|, k requires 0 <= k < |keys| => keys[k] + ":latest"), " ") + "]}"
  {
    var keys := SortedKeys(deps);
    SortedKeysSorted(deps);
    var m := DependencyMap(deps);
    var s1 := seq(|keys|, k requires 0 <= k < |keys| => keys[k] + ":" + m[keys[k]]);
    var s2 := seq(|keys|, k requires 0 <= k < |keys| => keys[k] + ":latest");
    forall k | 0 <= k < |keys|
      ensures s1[k] == s2[k]
    {
      assert keys[k] in keys;
      assert m[keys[k]] == "latest";
    }
    assert s1 == s2;
  }

  /** The Node generator as written: fill the map, then print it. */
  method NodeManifest(deps: seq<string>) returns (text: string)
    ensures text == PackageJson(deps)
  {
    var m := FillDependencies(deps);
    var keys := SortedKeys(deps);
    SortedKeysSorted(deps);
    text := "{\"dependencies\":" + MapText(m, keys) + "}";
  }

  // ---------------------------------------------------------------------
  // The command and the output.

  /** `requirementsGen(deps)`. */
  function Manifest(gen: Generator, deps: seq<string>): string
  {
    match gen
    case Lines => Requirements(deps)
    case PackageMap => PackageJson(deps)
    case GoModule => GoMod(deps)
  }

  /** The manifest file name and the install step chosen by the switch. */
  function ManifestFile(lang: string): string
  {
    if lang == Languages.Python then "requirements.txt"
    else if lang == Languages.NodeJS then "package.json"
    else if lang == Languages.Go then "go.mod"
    else ""
  }

  function InstallStep(lang: string, setup: Setup): string
  {
    if lang == Languages.Python then setup.installCommand + " -r requirements.txt"
    else if lang == Languages.NodeJS then setup.installCommand
    else if lang == Languages.Go then setup.installCommand + " ./..."
    else ""
  }

  function SourceFile(setup: Setup): string
  {
    "main" + setup.fileExtension
  }

  /** The container command: the install step, then the run command on
      the source file, under one shell. */
  function ShellCommand(install: string, setup: Setup): seq<string>
  {
    ["/bin/sh", "-c", install + " && " + Strs.Join(setup.runCommand, " ") + " " + SourceFile(setup)]
  }

  /** Python: `requirements.txt`, `main.py`, and a command that installs
      the requirements first and then always runs the source file. */
  lemma PythonCommand()
    ensures var s := SetupOf(Languages.Python).value;
      && ManifestFile(Languages.Python) == "requirements.txt" && SourceFile(s) == "main.py"
      && ShellCommand(InstallStep(Languages.Python, s), s)
         == ["/bin/sh", "-c", "pip install -r requirements.txt && python -c main.py"]
  {
    var s := SetupOf(Languages.Python).value;
    assert Strs.Join(s.runCommand, " ") == "python -c";
    assert InstallStep(Languages.Python, s) == "pip install -r requirements.txt";
    assert SourceFile(s) == "main.py";
    assert "pip install -r requirements.txt" + " && " + "python -c" == "pip install -r requirements.txt && python -c";
    assert "pip install -r requirements.txt && python -c" + " " + "main.py" == "pip install -r requirements.txt && python -c main.py";
  }

  /** Node: `package.json`, `main.js`, install first, then run. */
  lemma NodeCommand()
    ensures var s := SetupOf(Languages.NodeJS).value;
      && ManifestFile(Languages.NodeJS) == "package.json" && SourceFile(s) == "main.js"
      && ShellCommand(InstallStep(Languages.NodeJS, s), s) == ["/bin/sh", "-c", "npm install --no-save && node -e main.js"]
  {
    var s := SetupOf(Languages.NodeJS).value;
    assert Strs.Join(s.runCommand, " ") == "node -e";
    assert InstallStep(Languages.NodeJS, s) == "npm install --no-save";
    assert SourceFile(s) == "main.js";
    assert "npm install --no-save" + " && " + "node -e" == "npm install --no-save && node -e";
    assert "npm install --no-save && node -e" + " " + "main.js" == "npm install --no-save && node -e main.js";
  }

  /** Go: `go.mod`, `main.go`, install first, then run. */
  lemma GoCommand()
    ensures var s := SetupOf(Languages.Go).value;
      && ManifestFile(Languages.Go) == "go.mod" && SourceFile(s) == "main.go"
      && ShellCommand(InstallStep(Languages.Go, s), s) == ["/bin/sh", "-c", "go get ./... && go run main.go"]
  {
    var s := SetupOf(Languages.Go).value;
    assert Strs.Join(s.runCommand, " ") == "go run";
    assert InstallStep(Languages.Go, s) == "go get ./...";
    assert SourceFile(s) == "main.go";
    assert "go get ./..." + " && " + "go run" == "go get ./... && go run";
    assert "go get ./... && go run" + " " + "main.go" == "go get ./... && go run main.go";
  }

  /** Standard output, then the error output under an `Errors:` line
      when there is any. */
  function Combined(stdout: string, stderr: string): (out: string)
  {
    if |stderr| > 0 then stdout + "\nErrors:\n" + stderr else stdout
  }

  /** The output starts with standard output; it ends with the error
      output exactly when that is non-empty, and is standard output alone
      otherwise. */
  lemma CombinedParts(stdout: string, stderr: string)
    ensures var out := Combined(stdout, stderr);
      && stdout <= out
      && (stderr == "" <==> out == stdout)
      && (stderr != "" ==> out[|stdout|..] == "\nErrors:\n" + stderr)
  {
    var out := Combined(stdout, stderr);
    if stderr != "" {
      assert out[..|stdout|] == stdout;
      assert |out| > |stdout|;
    }
  }

  // ---------------------------------------------------------------------
  // `RunWithDependencies`.

  /** What it yields: the combined output, an error, or a panic (calling
      the nil generator of a tag that is not in the table). */
  datatype Outcome = Output(text: string) | Failed(err: string) | Panicked

  const FileMode: int := 0x1A4 // 0644

  /** Create and start the container with the temporary directory bound
      at `/app`, wait, read the logs. */
  function ContainerRun(script: nat -> Answer, n: nat, tmp: string, install: string, setup: Setup): Run<Outcome>
  {
    var started := StartRun(script, n, Config(setup.image, ShellCommand(install, setup), "/app", false, false),
                            [tmp + ":/app"]);
    match started.value
    case Err(e) => Run(started.calls, Failed(e))
    case Ok(id) =>
      var out := OutputRun(script, n + 2, id);
      Run(started.calls + out.calls,
          match out.value
          case Ok(o) => Output(Combined(o.0, o.1))
          case Err(e) => Failed(e))
  }

  method RunContainer(w: World, tmp: string, install: string, setup: Setup) returns (out: Outcome)
    requires w.Valid()
    modifies w
    ensures w.Valid()
    ensures w.log == old(w.log) + ContainerRun(w.script, |old(w.log)|, tmp, install, setup).calls
    ensures out == ContainerRun(w.script, |old(w.log)|, tmp, install, setup).value
  {
    var started := CreateAndStart(w, Config(setup.image, ShellCommand(install, setup), "/app", false, false),
                                  [tmp + ":/app"]);
    if started.Err? {
      return Failed(started.msg);
    }
    var output := AwaitOutput(w, started.value);
    match output
    case Ok(o) => out := Output(Combined(o.0, o.1));
    case Err(e) => out := Failed(e);
  }

  /** The engine half: pull the image, then run the container. */
  function EngineRun(script: nat -> Answer, n: nat, tmp: string, install: string, setup: Setup): Run<Outcome>
  {
    var pull := script(n);
    if !pull.ok then
      Run([Pull("docker.io/library/" + setup.image)],
          Failed("failed to pull Docker image " + setup.image + ": " + pull.err))
    else
      var rest := ContainerRun(script, n + 1, tmp, install, setup);
      Run([Pull("docker.io/library/" + setup.image)] + rest.calls, rest.value)
  }

  method RunInEngine(w: World, tmp: string, install: string, setup: Setup) returns (out: Outcome)
    requires w.Valid()
    modifies w
    ensures w.Valid()
    ensures w.log == old(w.log) + EngineRun(w.script, |old(w.log)|, tmp, install, setup).calls
    ensures out == EngineRun(w.script, |old(w.log)|, tmp, install, setup).value
  {
    var pull := w.Call(Pull("docker.io/library/" + setup.image));
    if !pull.ok {
      return Failed("failed to pull Docker image " + setup.image + ": " + pull.err);
    }
    ghost var mid := w.log;
    out := RunContainer(w, tmp, install, setup);
    ghost var rest := ContainerRun(w.script, |mid|, tmp, install, setup);
    assert EngineRun(w.script, |old(w.log)|, tmp, install, setup)
        == Run([Pull("docker.io/library/" + setup.image)] + rest.calls, rest.value);
    Assoc(old(w.log), [Pull("docker.io/library/" + setup.image)], rest.calls);
  }

  /** Where the host half leaves things: the temporary directory, the
      language's setup and install step, or the outcome it stopped with. */
  datatype Prepared = Ready(tmp: string, setup: Setup, install: string) | Stopped(out: Outcome)

  /** The switch on the language and the generator call: the manifest
      path, the install step and the manifest text. */
  method Generate(tmp: string, lang: string, setup: Setup, deps: seq<string>)
    returns (manifestFile: string, install: string, text: string)
    requires SetupOf(lang) == Some(setup)
    ensures manifestFile == Paths.Join(tmp, ManifestFile(lang))
    ensures install == InstallStep(lang, setup)
    ensures text == Manifest(setup.gen, deps)
  {
    if lang == Languages.Python {
      manifestFile := Paths.Join(tmp, "requirements.txt");
      install := setup.installCommand + " -r requirements.txt";
    } else if lang == Languages.NodeJS {
      manifestFile := Paths.Join(tmp, "package.json");
      install := setup.installCommand;
    } else {
      manifestFile := Paths.Join(tmp, "go.mod");
      install := setup.installCommand + " ./...";
    }
    match setup.gen {
      case Lines => text := Requirements(deps);
      case PackageMap => text := NodeManifest(deps);
      case GoModule => text := GoMod(deps);
    }
  }

  /** Writing the two files into the temporary directory `tmp`: the source
      file `main<ext>`, then the manifest.  The generator is called before
      the manifest is written, so a tag outside the table panics there. */
  function WriteRun(script: nat -> Answer, n: nat, tmp: string, code: string, lang: string, deps: seq<string>): Run<Prepared>
  {
    var setup := SetupOf(lang);
    var ext := if setup.Some? then setup.value.fileExtension else "";
    var writeCode := WriteFile(Paths.Join(tmp, "main" + ext), Utf8.Encode(code), FileMode);
    if !script(n).ok then Run([writeCode], Stopped(Failed("failed to write code file: " + script(n).err)))
    else if setup.None? then Run([writeCode], Stopped(Panicked))
    else
      var writeManifest := WriteFile(Paths.Join(tmp, ManifestFile(lang)), Utf8.Encode(Manifest(setup.value.gen, deps)), FileMode);
      Run([writeCode, writeManifest],
          if !script(n + 1).ok then Stopped(Failed("failed to write requirements file: " + script(n + 1).err))
          else Ready(tmp, setup.value, InstallStep(lang, setup.value)))
  }

  method WriteSources(w: World, tmp: string, code: string, lang: string, deps: seq<string>) returns (p: Prepared)
    requires w.Valid()
    modifies w
    ensures w.Valid()
    ensures w.log == old(w.log) + WriteRun(w.script, |old(w.log)|, tmp, code, lang, deps).calls
    ensures p == WriteRun(w.script, |old(w.log)|, tmp, code, lang, deps).value
  {
    var setup := SetupOf(lang);
    var ext := if setup.Some? then setup.value.fileExtension else "";
    var written := w.Call(WriteFile(Paths.Join(tmp, "main" + ext), Utf8.Encode(code), FileMode));
    if !written.ok {
      return Stopped(Failed("failed to write code file: " + written.err));
    }
    if setup.None? {
      return Stopped(Panicked);
    }
    var manifestFile, install, text := Generate(tmp, lang, setup.value, deps);
    var saved := w.Call(WriteFile(manifestFile, Utf8.Encode(text), FileMode));
    if !saved.ok {
      return Stopped(Failed("failed to write requirements file: " + saved.err));
    }
    return Ready(tmp, setup.value, install);
  }

  /** The host half: a temporary directory, then the two files in it. */
  function HostRun(script: nat -> Answer, n: nat, code: string, lang: string, deps: seq<string>): Run<Prepared>
  {
    var mk := script(n);
    if !mk.ok then Run([MkdirTemp("code-sandbox-*")], Stopped(Failed("failed to create temporary directory: " + mk.err)))
    else
      var rest := WriteRun(script, n + 1, mk.id, code, lang, deps);
      Run([MkdirTemp("code-sandbox-*")] + rest.calls, rest.value)
  }

  method PrepareHost(w: World, code: string, lang: string, deps: seq<string>) returns (p: Prepared)
    requires w.Valid()
    modifies w
    ensures w.Valid()
    ensures w.log == old(w.log) + HostRun(w.script, |old(w.log)|, code, lang, deps).calls
    ensures p == HostRun(w.script, |old(w.log)|, code, lang, deps).value
  {
    var mk := w.Call(MkdirTemp("code-sandbox-*"));
    if !mk.ok {
      return Stopped(Failed("failed to create temporary directory: " + mk.err));
    }
    ghost var mid := w.log;
    p := WriteSources(w, mk.id, code, lang, deps);
    ghost var rest := WriteRun(w.script, |mid|, mk.id, code, lang, deps);
    assert HostRun(w.script, |old(w.log)|, code, lang, deps) == Run([MkdirTemp("code-sandbox-*")] + rest.calls, rest.value);
    Assoc(old(w.log), [MkdirTemp("code-sandbox-*")], rest.calls);
  }

  /** The whole function: the host half, then the engine half. */
  function DepsRun(script: nat -> Answer, n: nat, code: string, lang: string, deps: seq<string>): Run<Outcome>
  {
    var host := HostRun(script, n, code, lang, deps);
    match host.value
    case Stopped(out) => Run(host.calls, out)
    case Ready(tmp, setup, install) =>
      var rest := EngineRun(script, n + |host.calls|, tmp, install, setup);
      Run(host.calls + rest.calls, rest.value)
  }

  method RunWithDependencies(w: World, code: string, lang: string, deps: seq<string>) returns (out: Outcome)
    requires w.Valid()
    modifies w
    ensures w.Valid()
    ensures w.log == old(w.log) + DepsRun(w.script, |old(w.log)|, code, lang, deps).calls
    ensures out == DepsRun(w.script, |old(w.log)|, code, lang, deps).value
  {
    var p := PrepareHost(w, code, lang, deps);
    if p.Stopped? {
      return p.out;
    }
    ghost var host := HostRun(w.script, |old(w.log)|, code, lang, deps);
    ghost var mid := w.log;
    assert p == host.value;
    assert |mid| == |old(w.log)| + |host.calls|;
    out := RunInEngine(w, p.tmp, p.install, p.setup);
    ghost var rest := EngineRun(w.script, |mid|, p.tmp, p.install, p.setup);
    assert DepsRun(w.script, |old(w.log)|, code, lang, deps) == Run(host.calls + rest.calls, rest.value);
    Assoc(old(w.log), host.calls, rest.calls);
  }

  /** The host half stops at its first failure; a tag outside the table
      panics right after the source file was written, and the host half is
      ready only after all three host calls succeeded. */
  lemma HostOrder(script: nat -> Answer, n: nat, code: string, lang: string, deps: seq<string>)
    ensures var r := HostRun(script, n, code, lang, deps);
      && 1 <= |r.calls| <= 3 && r.calls[0] == MkdirTemp("code-sandbox-*")
      && (SetupOf(lang).None? ==> |r.calls| <= 2 && (r.value == Stopped(Panicked) <==> script(n).ok && script(n + 1).ok))
      && (r.value.Ready? <==> SetupOf(lang).Some? && script(n).ok && script(n + 1).ok && script(n + 2).ok)
      && (r.value.Ready? ==> |r.calls| == 3 && r.value.tmp == script(n).id && r.value.setup == SetupOf(lang).value)
  {
  }

  /** Nothing reaches the engine unless the host half is ready; the image
      is pulled first and a container is created only after the pull
      succeeded. */
  lemma EngineOrder(script: nat -> Answer, n: nat, tmp: string, install: string, setup: Setup)
    ensures var r := EngineRun(script, n, tmp, install, setup);
      && 1 <= |r.calls| && r.calls[0] == Pull("docker.io/library/" + setup.image)
      && (|r.calls| > 1 <==> script(n).ok)
      && (|r.calls| > 1 ==> r.calls[1] == Create(Config(setup.image, ShellCommand(install, setup), "/app", false, false),
                                                 [tmp + ":/app"], ""))
  {
  }

  /** A successful engine half made six calls, and its output is the
      combined output of the container, read after the wait. */
  lemma EngineSuccess(script: nat -> Answer, n: nat, tmp: string, install: string, setup: Setup)
    requires EngineRun(script, n, tmp, install, setup).value.Output?
    ensures var r := EngineRun(script, n, tmp, install, setup);
      && |r.calls| == 6 && r.calls[3] == Wait(script(n + 1).id)
      && r.value.text == Combined(script(n + 5).stdout, script(n + 5).stderr)
  {
  }
}
