/** The `run_project` tool of the code sandbox (`tools/run_project.go`):
    argument checks, the manifest probe, command composition, and the
    pull, create, start and (in the foreground) wait and log steps. */
module RunProject {
  import opened Wrappers
  import Strs
  import Paths
  import opened Engine
  import opened Mcp
  import opened Languages
  import opened Projects

  /** What `runProjectInDocker` yields: logs and the container ID, an
      error, or a runtime panic. */
  datatype Outcome = Finished(logs: string, id: string) | Failed(err: string) | Crashed

  const IndexPanic: string := "runtime error: index out of range [-1]"

  function BackgroundNote(id: string): string
  {
    "Container started in background mode. Use 'docker logs " + id + "' to view logs."
  }

  /** The Node rewrite: when the last word has an extension, the first
      word gives way to the registry's Node run command `run` (when it has
      one). */
  function NodeRewrite(run: seq<string>, cmd: seq<string>): seq<string>
    requires |cmd| > 0
  {
    if Paths.Ext(cmd[|cmd| - 1]) != "" && run != [] then run + cmd[1..] else cmd
  }

  /** The install step for a manifest found in a project of language
      `lang`, if the code has one for it. */
  function InstallLine(lang: Language, f: string): Option<string>
  {
    if lang == Python then
      if f == "requirements.txt" then Some("pip install -r " + f)
      else if f == "pyproject.toml" || f == "setup.py" then Some("pip install .")
      else None
    else if lang == Go then Some("go mod download")
    else if lang == NodeJS then Some("npm install")
    else None
  }

  /** The container command for the manifest found (if any), where
      `config` is the registry entry of `lang`; `None` where the code
      indexes the last word of an empty command.  A manifest with no
      install step leaves the command unset. */
  function ComposeCommand(lang: Language, config: LanguageConfig, dep: Option<string>, cmd: seq<string>): Option<seq<string>>
  {
    match dep
    case Some(f) =>
      if lang == NodeJS then
        if |cmd| == 0 then None else Some(ShellLine("npm install", NodeRewrite(config.runCommand, cmd)))
      else if InstallLine(lang, f).Some? then Some(ShellLine(InstallLine(lang, f).value, cmd))
      else Some([])
    case None =>
      if lang == NodeJS then
        if |cmd| == 0 then None else Some(NodeRewrite(config.runCommand, cmd))
      else Some(cmd)
  }

  /** The second half of `runProjectInDocker`: create with the project
      bound at `/app`, start, and then either return at once (background)
      or wait and collect the output. */
  function LaunchRun(script: nat -> Answer, m: nat, c: seq<string>, image: string, dir: string, background: bool): Run<Outcome>
  {
    var started := StartRun(script, m, Config(image, c, "/app", false, false), [dir + ":/app"]);
    match started.value
    case Err(e) => Run(started.calls, Failed(e))
    case Ok(id) =>
      if background then Run(started.calls, Finished(BackgroundNote(id), id))
      else
        var out := OutputRun(script, m + 2, id);
        Run(started.calls + out.calls, match out.value
          case Ok(o) => Finished(o.0 + o.1, id)
          case Err(e) => Failed(e))
  }

  method Launch(w: World, c: seq<string>, image: string, dir: string, background: bool) returns (out: Outcome)
    requires w.Valid()
    modifies w
    ensures w.Valid()
    ensures w.log == old(w.log) + LaunchRun(w.script, |old(w.log)|, c, image, dir, background).calls
    ensures out == LaunchRun(w.script, |old(w.log)|, c, image, dir, background).value
  {
    var started := CreateAndStart(w, Config(image, c, "/app", false, false), [dir + ":/app"]);
    if started.Err? {
      return Failed(started.msg);
    }
    if background {
      return Finished(BackgroundNote(started.value), started.value);
    }
    var output := AwaitOutput(w, started.value);
    match output
    case Ok(o) => out := Finished(o.0 + o.1, started.value);
    case Err(e) => out := Failed(e);
  }

  /** Compose the command for the manifest found and launch it on the
      language's image. */
  function ComposedRun(script: nat -> Answer, n: nat, cmd: seq<string>, dir: string, lang: Language,
                       config: LanguageConfig, dep: Option<string>, background: bool): Run<Outcome>
  {
    match ComposeCommand(lang, config, dep, cmd)
    case None => Run([], Crashed)
    case Some(c) => LaunchRun(script, n, c, config.image, dir, background)
  }

  method LaunchComposed(w: World, cmd: seq<string>, dir: string, lang: Language, config: LanguageConfig,
                        dep: Option<string>, background: bool)
    returns (out: Outcome)
    requires w.Valid()
    modifies w
    ensures w.Valid()
    ensures w.log == old(w.log) + ComposedRun(w.script, |old(w.log)|, cmd, dir, lang, config, dep, background).calls
    ensures out == ComposedRun(w.script, |old(w.log)|, cmd, dir, lang, config, dep, background).value
  {
    var composed := ComposeCommand(lang, config, dep, cmd);
    if composed.None? {
      assert old(w.log) + [] == old(w.log);
      return Crashed;
    }
    out := Launch(w, composed.value, config.image, dir, background);
  }

  /** The middle of `runProjectInDocker`: probe for the language's
      manifests, compose the command, and launch. */
  function ComposeRun(script: nat -> Answer, n: nat, cmd: seq<string>, dir: string, lang: Language,
                      config: LanguageConfig, background: bool): Run<Outcome>
  {
    var probe := ProbeRun(script, n, dir, config.dependencyFiles);
    var rest := ComposedRun(script, n + |probe.calls|, cmd, dir, lang, config, probe.value, background);
    Run(probe.calls + rest.calls, rest.value)
  }

  method ComposeAndLaunch(w: World, cmd: seq<string>, dir: string, lang: Language, config: LanguageConfig,
                          background: bool)
    returns (out: Outcome)
    requires w.Valid()
    modifies w
    ensures w.Valid()
    ensures w.log == old(w.log) + ComposeRun(w.script, |old(w.log)|, cmd, dir, lang, config, background).calls
    ensures out == ComposeRun(w.script, |old(w.log)|, cmd, dir, lang, config, background).value
  {
    ghost var probe := ProbeRun(w.script, |w.log|, dir, config.dependencyFiles);
    var dep := Probe(w, dir, config.dependencyFiles);
    assert dep == probe.value && w.log == old(w.log) + probe.calls;
    ghost var mid := w.log;
    assert |mid| == |old(w.log)| + |probe.calls|;
    out := LaunchComposed(w, cmd, dir, lang, config, dep, background);
    ghost var rest := ComposedRun(w.script, |mid|, cmd, dir, lang, config, dep, background);
    assert ComposeRun(w.script, |old(w.log)|, cmd, dir, lang, config, background) == Run(probe.calls + rest.calls, rest.value);
    Assoc(old(w.log), probe.calls, rest.calls);
  }

  /** `runProjectInDocker`, given the registry entry `config` of `lang`
      (the handler passes its image as the image to run): pull the image,
      then probe, compose and launch. */
  function ProjectRun(script: nat -> Answer, n: nat, cmd: seq<string>, dir: string, lang: Language,
                      config: LanguageConfig, background: bool): Run<Outcome>
  {
    var pull := script(n);
    if !pull.ok then Run([Pull("docker.io/library/" + config.image)], Failed("failed to pull Docker image " + config.image + ": " + pull.err))
    else
      var rest := ComposeRun(script, n + 1, cmd, dir, lang, config, background);
      Run([Pull("docker.io/library/" + config.image)] + rest.calls, rest.value)
  }

  method RunProjectInDocker(w: World, cmd: seq<string>, dir: string, lang: Language, config: LanguageConfig,
                            background: bool)
    returns (out: Outcome)
    requires w.Valid()
    modifies w
    ensures w.Valid()
    ensures w.log == old(w.log) + ProjectRun(w.script, |old(w.log)|, cmd, dir, lang, config, background).calls
    ensures out == ProjectRun(w.script, |old(w.log)|, cmd, dir, lang, config, background).value
  {
    var pull := w.Call(Pull("docker.io/library/" + config.image));
    if !pull.ok {
      return Failed("failed to pull Docker image " + config.image + ": " + pull.err);
    }
    ghost var mid := w.log;
    out := ComposeAndLaunch(w, cmd, dir, lang, config, background);
    Assoc(old(w.log), [Pull("docker.io/library/" + config.image)], w.log[|mid|..]);
  }

  /** The handler's reply for an outcome: engine errors are error-flagged
      results, a background start names the container. */
  function ReplyOf(out: Outcome, background: bool): Reply
  {
    match out
    case Failed(e) => Text("Error: " + e, true)
    case Crashed => Crash(IndexPanic)
    case Finished(logs, id) =>
      if background then Text("Container started successfully with ID: " + id + "\nLogs:\n" + logs, false)
      else Text(logs, false)
  }

  /** Everything after the language has been read, given its registry
      entry `config`: the other arguments, the project directory check,
      and the run. */
  function SandboxRunFrom(script: nat -> Answer, n: nat, args: Args, cwd: string, lang: Language,
                          config: LanguageConfig): Run<Reply>
  {
    match GetStr(args, "entrypoint")
    case None => Run([], Fault("invalid entrypoint"))
    case Some(entrypoint) =>
      match GetStr(args, "projectDir")
      case None => Run([], Fault("invalid projectDir"))
      case Some(projectDir) =>
        match GetBool(args, "background")
        case None => Run([], Fault("invalid background"))
        case Some(background) =>
          var dir := Paths.Abs(projectDir, cwd);
          var stat := script(n);
          if !stat.ok && stat.missing then Run([Stat(dir)], Fault("project directory does not exist: " + dir))
          else
            var r := ProjectRun(script, n + 1, Strs.Fields(entrypoint), dir, lang, config, background);
            Run([Stat(dir)] + r.calls, ReplyOf(r.value, background))
  }

  method RunFrom(w: World, args: Args, cwd: string, lang: Language, config: LanguageConfig) returns (reply: Reply)
    requires w.Valid()
    modifies w
    ensures w.Valid()
    ensures w.log == old(w.log) + SandboxRunFrom(w.script, |old(w.log)|, args, cwd, lang, config).calls
    ensures reply == SandboxRunFrom(w.script, |old(w.log)|, args, cwd, lang, config).value
  {
    var entrypoint := GetStr(args, "entrypoint");
    if entrypoint.None? {
      return Fault("invalid entrypoint");
    }
    var projectDir := GetStr(args, "projectDir");
    if projectDir.None? {
      return Fault("invalid projectDir");
    }
    var background := GetBool(args, "background");
    if background.None? {
      return Fault("invalid background");
    }
    var dir := Paths.Abs(projectDir.value, cwd);
    var stat := w.Call(Stat(dir));
    if !stat.ok && stat.missing {
      return Fault("project directory does not exist: " + dir);
    }
    ghost var mid := w.log;
    var out := RunProjectInDocker(w, Strs.Fields(entrypoint.value), dir, lang, config, background.value);
    Assoc(old(w.log), [Stat(dir)], w.log[|mid|..]);
    reply := ReplyOf(out, background.value);
  }

  /** The assertion `.(deps.Language)` as written: it holds only for a
      value of the named type itself, never for the plain string JSON
      decoding yields. */
  function NamedLanguage(v: Option<Value>): (l: Option<Language>)
    ensures l.Some? <==> v.Some? && v.value.VLanguage?
    ensures l.Some? ==> v.value.tag == l.value
  {
    match v
    case Some(VLanguage(tag)) => Some(tag)
    case _ => None
  }

  /** `RunProjectSandbox` as written. */
  function SandboxRunAsWritten(script: nat -> Answer, n: nat, args: Args, cwd: string): Run<Reply>
  {
    match NamedLanguage(Lookup(args, "language"))
    case None => Run([], Fault("invalid language"))
    case Some(lang) => SandboxRunFrom(script, n, args, cwd, lang, ConfigOf(lang))
  }

  method RunProjectSandboxAsWritten(w: World, args: Args, cwd: string) returns (reply: Reply)
    requires w.Valid()
    modifies w
    ensures w.Valid()
    ensures w.log == old(w.log) + SandboxRunAsWritten(w.script, |old(w.log)|, args, cwd).calls
    ensures reply == SandboxRunAsWritten(w.script, |old(w.log)|, args, cwd).value
  {
    var lang := NamedLanguage(Lookup(args, "language"));
    if lang.None? {
      return Fault("invalid language");
    }
    reply := RunFrom(w, args, cwd, lang.value, ConfigOf(lang.value));
  }

  /** `RunProjectSandbox` with the language read as the string it is. */
  function SandboxRun(script: nat -> Answer, n: nat, args: Args, cwd: string): Run<Reply>
  {
    match GetStr(args, "language")
    case None => Run([], Fault("invalid language"))
    case Some(lang) => SandboxRunFrom(script, n, args, cwd, lang, ConfigOf(lang))
  }

  method RunProjectSandbox(w: World, args: Args, cwd: string) returns (reply: Reply)
    requires w.Valid()
    modifies w
    ensures w.Valid()
    ensures w.log == old(w.log) + SandboxRun(w.script, |old(w.log)|, args, cwd).calls
    ensures reply == SandboxRun(w.script, |old(w.log)|, args, cwd).value
  {
    var lang := GetStr(args, "language");
    if lang.None? {
      return Fault("invalid language");
    }
    reply := RunFrom(w, args, cwd, lang.value, ConfigOf(lang.value));
  }

  /** As written, the tool refuses every request that arrives as JSON,
      however well formed, before touching the engine or the host. */
  lemma AsWrittenRejectsEverything(script: nat -> Answer, n: nat, args: Args, cwd: string)
    requires JsonArgs(args)
    ensures SandboxRunAsWritten(script, n, args, cwd) == Run([], Fault("invalid language"))
  {
  }

  /** The reply never is a protocol error: an engine failure becomes an
      error-flagged `Error: ...` result, a panic stays a panic, and a
      finished run is a plain result. */
  lemma ReplyOfKinds(out: Outcome, background: bool)
    ensures var rep := ReplyOf(out, background);
      && !rep.Fault?
      && (rep.Crash? <==> out.Crashed?)
      && (rep.Text? && rep.isError <==> out.Failed?)
      && (rep.Text? && rep.isError ==> |rep.text| >= 7 && rep.text[..7] == "Error: ")
  {
    if out.Failed? {
      assert ("Error: " + out.err)[..7] == "Error: ";
    }
  }

  /** Argument errors are protocol errors raised before any call, and a
      missing project directory is one raised right after its stat; every
      later outcome is a tool result or a panic. */
  lemma FaultsComeFirst(script: nat -> Answer, n: nat, args: Args, cwd: string, lang: Language, config: LanguageConfig)
    ensures var r := SandboxRunFrom(script, n, args, cwd, lang, config);
      r.value.Fault? <==> r.calls == [] || (|r.calls| == 1 && !script(n).ok && script(n).missing)
  {
    var r := SandboxRunFrom(script, n, args, cwd, lang, config);
    if GetStr(args, "entrypoint").Some? && GetStr(args, "projectDir").Some? && GetBool(args, "background").Some?
       && !(!script(n).ok && script(n).missing) {
      var background := GetBool(args, "background").value;
      var dir := Paths.Abs(GetStr(args, "projectDir").value, cwd);
      var cmd := Strs.Fields(GetStr(args, "entrypoint").value);
      var p := ProjectRun(script, n + 1, cmd, dir, lang, config, background);
      PullFirst(script, n + 1, cmd, dir, lang, config, background);
      ReplyOfKinds(p.value, background);
      assert r.calls == [Stat(dir)] + p.calls;
    }
  }

  /** With the language read as a string, a request with all four
      arguments well typed and an existing project directory gets past the
      argument checks: its first call is the stat of the directory and its
      second the pull of the language's image. */
  lemma CorrectedAcceptsWellTyped(script: nat -> Answer, n: nat, args: Args, cwd: string,
                                  lang: string, entrypoint: string, projectDir: string, background: bool)
    requires Lookup(args, "language") == Some(VStr(lang)) && Lookup(args, "entrypoint") == Some(VStr(entrypoint))
    requires Lookup(args, "projectDir") == Some(VStr(projectDir)) && Lookup(args, "background") == Some(VBool(background))
    requires script(n).ok
    ensures var r := SandboxRun(script, n, args, cwd);
      && !r.value.Fault?
      && |r.calls| >= 2
      && r.calls[0] == Stat(Paths.Abs(projectDir, cwd))
      && r.calls[1] == Pull("docker.io/library/" + ConfigOf(lang).image)
  {
    var config := ConfigOf(lang);
    var dir := Paths.Abs(projectDir, cwd);
    var p := ProjectRun(script, n + 1, Strs.Fields(entrypoint), dir, lang, config, background);
    PullFirst(script, n + 1, Strs.Fields(entrypoint), dir, lang, config, background);
    ReplyOfKinds(p.value, background);
    assert GetStr(args, "language") == Some(lang);
    assert GetStr(args, "entrypoint") == Some(entrypoint);
    assert GetStr(args, "projectDir") == Some(projectDir);
    assert GetBool(args, "background") == Some(background);
    assert SandboxRun(script, n, args, cwd) == SandboxRunFrom(script, n, args, cwd, lang, config);
    assert SandboxRunFrom(script, n, args, cwd, lang, config) == Run([Stat(dir)] + p.calls, ReplyOf(p.value, background));
  }

  /** Over the whole tool: protocol errors exactly before any call or for
      a missing directory, and every engine failure an error-flagged
      `Error: ...` result. */
  lemma ReplyKinds(script: nat -> Answer, n: nat, args: Args, cwd: string)
    ensures var r := SandboxRun(script, n, args, cwd);
      && (r.value.Fault? <==> r.calls == [] || (|r.calls| == 1 && !script(n).ok && script(n).missing))
      && (r.value.Text? && r.value.isError ==> |r.value.text| >= 7 && r.value.text[..7] == "Error: ")
  {
    var r := SandboxRun(script, n, args, cwd);
    if GetStr(args, "language").Some? {
      var lang := GetStr(args, "language").value;
      FaultsComeFirst(script, n, args, cwd, lang, ConfigOf(lang));
      if r.value.Text? && r.value.isError {
        var background := GetBool(args, "background").value;
        var dir := Paths.Abs(GetStr(args, "projectDir").value, cwd);
        var cmd := Strs.Fields(GetStr(args, "entrypoint").value);
        ReplyOfKinds(ProjectRun(script, n + 1, cmd, dir, lang, ConfigOf(lang), background).value, background);
      }
    }
  }

  /** The calls a launch can make: the container calls, never a stat or
      a pull. */
  predicate ContainerCall(c: Call)
  {
    c.Create? || c.Start? || c.Wait? || c.Logs? || c.Demux?
  }

  predicate ContainerCalls(cs: seq<Call>)
  {
    forall k :: 0 <= k < |cs| ==> ContainerCall(cs[k])
  }

  /** Launching first creates the container with the command, the project
      bound at `/app` and `/app` as working directory, makes only container
      calls, and finishes only after starting the container just created. */
  lemma LaunchCreatesFirst(script: nat -> Answer, m: nat, c: seq<string>, image: string, dir: string, background: bool)
    ensures var r := LaunchRun(script, m, c, image, dir, background);
      && |r.calls| >= 1
      && r.calls[0] == Create(Config(image, c, "/app", false, false), [dir + ":/app"], "")
      && ContainerCalls(r.calls)
      && (r.value.Finished? ==> |r.calls| >= 2 && r.calls[1] == Start(r.value.id) && r.value.id == script(m).id)
  {
    var r := LaunchRun(script, m, c, image, dir, background);
    if script(m).ok && script(m + 1).ok && !background {
      OutputOrder(script, m + 2, script(m).id);
    }
  }

  /** A background launch never waits and reports where its logs are. */
  lemma BackgroundNeverWaits(script: nat -> Answer, m: nat, c: seq<string>, image: string, dir: string)
    ensures var r := LaunchRun(script, m, c, image, dir, true);
      && (forall k :: 0 <= k < |r.calls| ==> !r.calls[k].Wait?)
      && (r.value.Finished? ==> r.value.logs == BackgroundNote(r.value.id))
  {
  }

  /** A foreground launch that finishes waited for the container, read its
      logs, and returns its stdout followed by its stderr. */
  lemma ForegroundOutput(script: nat -> Answer, m: nat, c: seq<string>, image: string, dir: string)
    requires LaunchRun(script, m, c, image, dir, false).value.Finished?
    ensures var r := LaunchRun(script, m, c, image, dir, false);
      var id := r.value.id;
      && r.calls[1..] == [Start(id), Wait(id), Logs(id, true, true), Demux(id)]
      && r.value.logs == script(m + 4).stdout + script(m + 4).stderr
  {
    OutputOrder(script, m + 2, script(m).id);
  }

  /** After the probe, a run panics exactly for a Node project with an
      empty entrypoint, and then makes no engine call. */
  lemma ComposedSteps(script: nat -> Answer, n: nat, cmd: seq<string>, dir: string, lang: Language,
                      config: LanguageConfig, dep: Option<string>, background: bool)
    ensures var r := ComposedRun(script, n, cmd, dir, lang, config, dep, background);
      && (r.value.Crashed? <==> lang == NodeJS && cmd == [])
      && (r.value.Crashed? ==> r.calls == [])
      && (r.value.Failed? ==> |r.calls| >= 1)
  {
    match ComposeCommand(lang, config, dep, cmd)
    case None =>
    case Some(c) => LaunchCreatesFirst(script, n, c, config.image, dir, background);
  }

  /** After the probe, a run makes only container calls. */
  lemma ComposedContainer(script: nat -> Answer, n: nat, cmd: seq<string>, dir: string, lang: Language,
                          config: LanguageConfig, dep: Option<string>, background: bool)
    ensures ContainerCalls(ComposedRun(script, n, cmd, dir, lang, config, dep, background).calls)
  {
    match ComposeCommand(lang, config, dep, cmd)
    case None =>
    case Some(c) => LaunchCreatesFirst(script, n, c, config.image, dir, background);
  }

  /** The probe comes first and is complete before anything else; what
      follows it is the composed launch (see `ComposedContainer`). */
  lemma ProbeIsPrefix(script: nat -> Answer, n: nat, cmd: seq<string>, dir: string, lang: Language,
                      config: LanguageConfig, background: bool)
    ensures var r := ComposeRun(script, n, cmd, dir, lang, config, background);
      var probe := ProbeRun(script, n, dir, config.dependencyFiles);
      && |probe.calls| <= |r.calls|
      && r.calls[..|probe.calls|] == probe.calls
  {
    var probe := ProbeRun(script, n, dir, config.dependencyFiles);
    var rest := ComposedRun(script, n + |probe.calls|, cmd, dir, lang, config, probe.value, background);
    Halves(probe.calls, rest.calls);
    ComposeSplit(script, n, cmd, dir, lang, config, background);
  }

  lemma ComposeSplit(script: nat -> Answer, n: nat, cmd: seq<string>, dir: string, lang: Language,
                     config: LanguageConfig, background: bool)
    ensures var probe := ProbeRun(script, n, dir, config.dependencyFiles);
      var rest := ComposedRun(script, n + |probe.calls|, cmd, dir, lang, config, probe.value, background);
      ComposeRun(script, n, cmd, dir, lang, config, background) == Run(probe.calls + rest.calls, rest.value)
  {
  }

  /** The pull comes first and a failed pull ends the run; otherwise the
      probe follows at once. */
  lemma PullFirst(script: nat -> Answer, n: nat, cmd: seq<string>, dir: string, lang: Language,
                  config: LanguageConfig, background: bool)
    ensures var r := ProjectRun(script, n, cmd, dir, lang, config, background);
      var probe := ProbeRun(script, n + 1, dir, config.dependencyFiles);
      && |r.calls| >= 1 && r.calls[0] == Pull("docker.io/library/" + config.image)
      && (!script(n).ok ==> |r.calls| == 1 && r.value.Failed?)
      && (script(n).ok ==> |r.calls| >= 1 + |probe.calls| && r.calls[1..1 + |probe.calls|] == probe.calls)
  {
    if script(n).ok {
      var r := ProjectRun(script, n, cmd, dir, lang, config, background);
      var probe := ProbeRun(script, n + 1, dir, config.dependencyFiles);
      var rest := ComposeRun(script, n + 1, cmd, dir, lang, config, background);
      ProbeIsPrefix(script, n + 1, cmd, dir, lang, config, background);
      assert r.calls[1..] == rest.calls;
      assert r.calls[1..1 + |probe.calls|] == rest.calls[..|probe.calls|];
    }
  }

  /** The first word of a Node command gives way to the registry's run
      command exactly when the last word has an extension; the other words
      are kept, in order. */
  lemma NodeRewriteKeepsArguments(cmd: seq<string>)
    requires |cmd| > 0
    ensures var run := ConfigOf(NodeJS).runCommand;
      var r := NodeRewrite(run, cmd);
      && |r| >= |cmd|
      && r[|r| - (|cmd| - 1)..] == cmd[1..]
      && (Paths.Ext(cmd[|cmd| - 1]) != "" <==> |r| == |cmd| + 2)
      && (Paths.Ext(cmd[|cmd| - 1]) != "" ==> r[..3] == run)
      && (Paths.Ext(cmd[|cmd| - 1]) == "" ==> r == cmd)
  {
  }

  /** Every manifest the registry lists has an install step, and every
      run command is made of plain words. */
  lemma ManifestsHaveInstall(lang: Language, f: string)
    requires lang in AllLanguages && f in ConfigOf(lang).dependencyFiles
    ensures InstallLine(lang, f).Some?
  {
  }

  lemma RunCommandWords(lang: Language)
    ensures Strs.Words(ConfigOf(lang).runCommand)
  {
    var run := ConfigOf(lang).runCommand;
    if lang == Python {
      assert run == ["uvx", "run", "main.py"];
      Strs.ThreeWords("uvx", "run", "main.py");
    } else if lang == Go {
      assert run == ["go", "run", "main.go"];
      Strs.ThreeWords("go", "run", "main.go");
    } else if lang == NodeJS {
      assert run == ["bun", "run", "main.ts"];
      Strs.ThreeWords("bun", "run", "main.ts");
    } else {
      assert run == [];
    }
  }

  /** With a manifest that has an install step, the container runs one
      shell line that the shell splits into the install step's words,
      `&&`, and the (for Node, rewritten) entrypoint words; only a Node
      project with an empty entrypoint gets no command at all. */
  lemma ManifestShellLine(lang: Language, config: LanguageConfig, f: string, entrypoint: string)
    requires InstallLine(lang, f).Some? && Strs.Words(config.runCommand)
    ensures var cmd := Strs.Fields(entrypoint);
      var c := ComposeCommand(lang, config, Some(f), cmd);
      && (c.None? <==> lang == NodeJS && cmd == [])
      && (c.Some? ==> |c.value| == 3 && c.value[0] == "/bin/sh" && c.value[1] == "-c")
      && (c.Some? ==> Strs.Fields(c.value[2]) == Strs.Fields(InstallLine(lang, f).value) + ["&&"]
                        + (if lang == NodeJS then NodeRewrite(config.runCommand, cmd) else cmd))
  {
    var cmd := Strs.Fields(entrypoint);
    if lang == NodeJS && cmd != [] {
      var words := NodeRewrite(config.runCommand, cmd);
      forall k | 0 <= k < |words| ensures |words[k]| > 0 && Strs.NoSpace(words[k]) {
        if words != cmd {
          if k >= |config.runCommand| {
            assert words[k] == cmd[k - |config.runCommand| + 1];
          } else {
            assert words[k] == config.runCommand[k];
          }
        }
      }
      ShellSeesCommand("npm install", words);
    } else if lang != NodeJS {
      ShellSeesCommand(InstallLine(lang, f).value, cmd);
    }
  }

  /** Without a manifest, a non-Node entrypoint is run verbatim: no shell,
      no install step. */
  lemma NoManifestVerbatim(lang: Language, config: LanguageConfig, cmd: seq<string>)
    requires lang != NodeJS
    ensures ComposeCommand(lang, config, None, cmd) == Some(cmd)
  {
  }

  /** A Node project with an empty entrypoint indexes the missing last word
      and panics, with or without a manifest. */
  lemma NodeEmptyPanics(config: LanguageConfig, dep: Option<string>)
    ensures ComposeCommand(NodeJS, config, dep, []).None?
  {
  }
}
