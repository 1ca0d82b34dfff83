/** The first server of the repository (`src/docker-sandbox-mcp/main.go`):
    its language registry with per-extension Node commands, the enum tag
    of its tool descriptions, and its two tools — `run_code`, which passes
    the code on the command line (or, for Go, as a mounted file), and
    `run_project`, which probes for a manifest, composes the command and
    runs the project mounted at `/app`.  Arguments arrive already decoded
    into the tools' argument records. */
module DockerSandbox {
  import opened Wrappers
  import Strs
  import Paths
  import Utf8
  import opened Engine
  import opened Mcp
  import Languages
  import Projects
  import RunProject

  type Language = Languages.Language
  type byte = Utf8.byte

  /** A registry entry: image, manifest files in probe order, install
      command, and the Node command for each source file extension. */
  datatype SandboxConfig = SandboxConfig(
    image: string,
    dependencyFiles: seq<string>,
    installCommand: seq<string>,
    fileExtensions: map<string, seq<string>>)

  /** The entry Go's map index yields for a tag not in the registry. */
  const ZeroConfig: SandboxConfig := SandboxConfig("", [], [], map[])

  /** Node's command for TypeScript sources. */
  const NodeTypeScript: seq<string> := ["node", "--experimental-strip-types", "--experimental-transform-types"]

  const Registry: map<Language, SandboxConfig> := map[
    Languages.Python := SandboxConfig("python:3.12-slim-bookworm",
                                      ["requirements.txt", "pyproject.toml", "setup.py"],
                                      ["pip", "install", "-r", "requirements.txt"], map[]),
    Languages.Go := SandboxConfig("golang:1.21-alpine", ["go.mod"], ["go", "mod", "download"], map[]),
    Languages.NodeJS := SandboxConfig("node:23-slim", ["package.json"], ["npm", "install"],
                                      map[".js" := ["node"], ".ts" := NodeTypeScript,
                                          ".tsx" := NodeTypeScript, ".jsx" := ["node"]])]

  /** `supportedLanguages[l]`. */
  function ConfigOf(l: Language): (c: SandboxConfig)
    ensures l in Registry ==> c == Registry[l]
    ensures l !in Registry ==> c == ZeroConfig
  {
    if l in Registry then Registry[l] else ZeroConfig
  }

  /** The language list of this server is the one of the code sandbox, and
      `IsValid` (membership in it) holds exactly for the tags with a
      registry entry, so a valid tag never looks up the zero entry. */
  lemma ValidIffRegistered(l: Language)
    ensures l in Languages.AllLanguages <==> l in Registry
    ensures l in Languages.AllLanguages <==> ConfigOf(l) != ZeroConfig
  {
  }

  /** `enum=<tag>` for each tag, in order. */
  function EnumTags(tags: seq<Language>): (r: seq<string>)
    ensures |r| == |tags|
    ensures forall i :: 0 <= i < |tags| ==> r[i] == "enum=" + tags[i]
  {
    if |tags| == 0 then [] else EnumTags(tags[..|tags| - 1]) + ["enum=" + tags[|tags| - 1]]
  }

  /** `GenerateEnumTag`: one `enum=<tag>` per language, appended in list
      order and joined by commas. */
  method GenerateEnumTag() returns (tag: string)
    ensures tag == Strs.Join(EnumTags(Languages.AllLanguages), ",")
  {
    var tags: seq<string> := [];
    for i := 0 to |Languages.AllLanguages|
      invariant tags == EnumTags(Languages.AllLanguages[..i])
    {
      assert Languages.AllLanguages[..i + 1][..i] == Languages.AllLanguages[..i];
      tags := tags + ["enum=" + Languages.AllLanguages[i]];
    }
    assert Languages.AllLanguages[..3] == Languages.AllLanguages;
    tag := Strs.Join(tags, ",");
  }

  /** The tag the tool descriptions carry. */
  lemma EnumTagText()
    ensures Strs.Join(EnumTags(Languages.AllLanguages), ",") == "enum=python,enum=go,enum=nodejs"
  {
    var tags := EnumTags(Languages.AllLanguages);
    assert |tags| == 3;
    assert tags[0] == "enum=" + Languages.Python == "enum=python";
    assert tags[1] == "enum=" + Languages.Go == "enum=go";
    assert tags[2] == "enum=" + Languages.NodeJS == "enum=nodejs";
    assert tags == ["enum=python", "enum=go", "enum=nodejs"];
    assert tags[1..] == ["enum=go", "enum=nodejs"];
    assert tags[1..][1..] == ["enum=nodejs"];
    assert Strs.Join(tags[1..][1..], ",") == "enum=nodejs";
    assert Strs.Join(tags[1..], ",") == "enum=go" + "," + "enum=nodejs" == "enum=go,enum=nodejs";
    assert Strs.Join(tags, ",") == "enum=python" + "," + "enum=go,enum=nodejs";
  }

  // The run_project tool

  /** The Node rewrite: when the last word's extension is one the registry
      has a command for, that command replaces the first word.  `None`
      where the code indexes the last word of an empty command. */
  function NodeRewrite(exts: map<string, seq<string>>, cmd: seq<string>): Option<seq<string>>
  {
    if |cmd| == 0 then None
    else
      var e := Paths.Ext(cmd[|cmd| - 1]);
      if e != "" && e in exts then Some(exts[e] + cmd[1..]) else Some(cmd)
  }

  /** The container command for the manifest found (if any): the install
      step and the (for Node, rewritten) entrypoint as one shell line, or
      the entrypoint alone.  A manifest with no install step leaves the
      command unset. */
  function ComposeCommand(lang: Language, exts: map<string, seq<string>>, dep: Option<string>,
                          cmd: seq<string>): Option<seq<string>>
  {
    match dep
    case Some(f) =>
      if lang == Languages.NodeJS then
        match NodeRewrite(exts, cmd)
        case None => None
        case Some(c) => Some(Projects.ShellLine("npm install", c))
      else if RunProject.InstallLine(lang, f).Some? then Some(Projects.ShellLine(RunProject.InstallLine(lang, f).value, cmd))
      else Some([])
    case None =>
      if lang == Languages.NodeJS then NodeRewrite(exts, cmd) else Some(cmd)
  }

  /** Probe for the language's manifests, compose, and launch the project
      mounted at `/app`. */
  function ComposeRun(script: nat -> Answer, n: nat, cmd: seq<string>, dir: string, lang: Language,
                      config: SandboxConfig, background: bool): Run<RunProject.Outcome>
  {
    var probe := Projects.ProbeRun(script, n, dir, config.dependencyFiles);
    match ComposeCommand(lang, config.fileExtensions, probe.value, cmd)
    case None => Run(probe.calls, RunProject.Crashed)
    case Some(c) =>
      var launch := RunProject.LaunchRun(script, n + |probe.calls|, c, config.image, dir, background);
      Run(probe.calls + launch.calls, launch.value)
  }

  method ComposeAndLaunch(w: World, cmd: seq<string>, dir: string, lang: Language, config: SandboxConfig,
                          background: bool)
    returns (out: RunProject.Outcome)
    requires w.Valid()
    modifies w
    ensures w.Valid()
    ensures w.log == old(w.log) + ComposeRun(w.script, |old(w.log)|, cmd, dir, lang, config, background).calls
    ensures out == ComposeRun(w.script, |old(w.log)|, cmd, dir, lang, config, background).value
  {
    ghost var probe := Projects.ProbeRun(w.script, |w.log|, dir, config.dependencyFiles);
    var dep := Projects.Probe(w, dir, config.dependencyFiles);
    assert dep == probe.value && w.log == old(w.log) + probe.calls;
    var composed := ComposeCommand(lang, config.fileExtensions, dep, cmd);
    if composed.None? {
      return RunProject.Crashed;
    }
    ghost var mid := w.log;
    ComposeLaunchSplit(w.script, |old(w.log)|, |mid|, cmd, dir, lang, config, background);
    out := RunProject.Launch(w, composed.value, config.image, dir, background);
    Assoc(old(w.log), probe.calls, RunProject.LaunchRun(w.script, |mid|, composed.value, config.image, dir, background).calls);
  }

  /** The run after the probe, when a command was composed: the probe's
      calls, then the launch's, starting at `m`. */
  lemma ComposeLaunchSplit(script: nat -> Answer, n: nat, m: nat, cmd: seq<string>, dir: string, lang: Language,
                           config: SandboxConfig, background: bool)
    requires m == n + |Projects.ProbeRun(script, n, dir, config.dependencyFiles).calls|
    requires ComposeCommand(lang, config.fileExtensions, Projects.ProbeRun(script, n, dir, config.dependencyFiles).value, cmd).Some?
    ensures var c := ComposeCommand(lang, config.fileExtensions, Projects.ProbeRun(script, n, dir, config.dependencyFiles).value, cmd).value;
      ComposeRun(script, n, cmd, dir, lang, config, background)
      == Run(Projects.ProbeRun(script, n, dir, config.dependencyFiles).calls
               + RunProject.LaunchRun(script, m, c, config.image, dir, background).calls,
             RunProject.LaunchRun(script, m, c, config.image, dir, background).value)
  {
  }

  /** `runProjectInDocker`: pull the image from Docker Hub's library, then
      probe, compose and launch. */
  function ProjectRun(script: nat -> Answer, n: nat, cmd: seq<string>, dir: string, lang: Language,
                      config: SandboxConfig, background: bool): Run<RunProject.Outcome>
  {
    var pull := script(n);
    if !pull.ok then Run([Pull("docker.io/library/" + config.image)],
                         RunProject.Failed("failed to pull Docker image " + config.image + ": " + pull.err))
    else
      var rest := ComposeRun(script, n + 1, cmd, dir, lang, config, background);
      Run([Pull("docker.io/library/" + config.image)] + rest.calls, rest.value)
  }

  method RunProjectInDocker(w: World, cmd: seq<string>, dir: string, lang: Language, config: SandboxConfig,
                            background: bool)
    returns (out: RunProject.Outcome)
    requires w.Valid()
    modifies w
    ensures w.Valid()
    ensures w.log == old(w.log) + ProjectRun(w.script, |old(w.log)|, cmd, dir, lang, config, background).calls
    ensures out == ProjectRun(w.script, |old(w.log)|, cmd, dir, lang, config, background).value
  {
    var pull := w.Call(Pull("docker.io/library/" + config.image));
    if !pull.ok {
      return RunProject.Failed("failed to pull Docker image " + config.image + ": " + pull.err);
    }
    ghost var mid := w.log;
    out := ComposeAndLaunch(w, cmd, dir, lang, config, background);
    Assoc(old(w.log), [Pull("docker.io/library/" + config.image)], w.log[|mid|..]);
  }

  /** The decoded arguments of `run_project`. */
  datatype ProjectArgs = ProjectArgs(projectDir: string, language: Language, entrypoint: seq<string>, background: bool)

  /** The tool's reply: an engine error is plain text (not flagged as an
      error), a background start names the container. */
  function ProjectReply(out: RunProject.Outcome, background: bool): (reply: Reply)
    ensures out.Failed? ==> reply == Text("Error: " + out.err, false)
    ensures out.Crashed? ==> reply.Crash?
    ensures out.Finished? && !background ==> reply == Text(out.logs, false)
  {
    match out
    case Failed(e) => Text("Error: " + e, false)
    case Crashed => Crash(RunProject.IndexPanic)
    case Finished(logs, id) =>
      if background then Text("Container started successfully with ID: " + id + "\nLogs:\n" + logs, false)
      else Text(logs, false)
  }

  /** Run the project and turn the outcome into the tool's reply. */
  function ReplyRun(script: nat -> Answer, n: nat, cmd: seq<string>, dir: string, lang: Language,
                    config: SandboxConfig, background: bool): Run<Reply>
  {
    var r := ProjectRun(script, n, cmd, dir, lang, config, background);
    Run(r.calls, ProjectReply(r.value, background))
  }

  method RunAndReply(w: World, cmd: seq<string>, dir: string, lang: Language, config: SandboxConfig,
                     background: bool)
    returns (reply: Reply)
    requires w.Valid()
    modifies w
    ensures w.Valid()
    ensures w.log == old(w.log) + ReplyRun(w.script, |old(w.log)|, cmd, dir, lang, config, background).calls
    ensures reply == ReplyRun(w.script, |old(w.log)|, cmd, dir, lang, config, background).value
  {
    var out := RunProjectInDocker(w, cmd, dir, lang, config, background);
    reply := ProjectReply(out, background);
  }

  /** After the language check, given the registry entry `config` of
      the language and the project directory `dir` resolved to an absolute
      path: check that it exists, and run. */
  function ProjectFromRun(script: nat -> Answer, n: nat, dir: string, args: ProjectArgs, config: SandboxConfig): Run<Reply>
  {
    var stat := script(n);
    if !stat.ok && stat.missing then Run([Stat(dir)], Fault("project directory does not exist: " + dir))
    else
      var r := ReplyRun(script, n + 1, args.entrypoint, dir, args.language, config, args.background);
      Run([Stat(dir)] + r.calls, r.value)
  }

  method ProjectFrom(w: World, dir: string, args: ProjectArgs, config: SandboxConfig) returns (reply: Reply)
    requires w.Valid()
    modifies w
    ensures w.Valid()
    ensures w.log == old(w.log) + ProjectFromRun(w.script, |old(w.log)|, dir, args, config).calls
    ensures reply == ProjectFromRun(w.script, |old(w.log)|, dir, args, config).value
  {
    var stat := w.Call(Stat(dir));
    if !stat.ok && stat.missing {
      return Fault("project directory does not exist: " + dir);
    }
    ghost var mid := w.log;
    ProjectFromSplit(w.script, |old(w.log)|, |mid|, dir, args, config);
    reply := RunAndReply(w, args.entrypoint, dir, args.language, config, args.background);
    Assoc(old(w.log), [Stat(dir)],
          ReplyRun(w.script, |mid|, args.entrypoint, dir, args.language, config, args.background).calls);
  }

  /** The run once the directory is found: its stat, then the project's
      run from `m` on. */
  lemma ProjectFromSplit(script: nat -> Answer, n: nat, m: nat, dir: string, args: ProjectArgs, config: SandboxConfig)
    requires script(n).ok || !script(n).missing
    requires m == n + 1
    ensures ProjectFromRun(script, n, dir, args, config)
      == Run([Stat(dir)] + ReplyRun(script, m, args.entrypoint, dir, args.language, config, args.background).calls,
             ReplyRun(script, m, args.entrypoint, dir, args.language, config, args.background).value)
  {
  }

  /** The `run_project` handler: an unsupported language is refused
      before anything else; the project directory is resolved against the
      working directory `cwd`. */
  function ProjectToolRun(script: nat -> Answer, n: nat, args: ProjectArgs, cwd: string): Run<Reply>
  {
    if args.language !in Languages.AllLanguages then Run([], Fault("unsupported language: " + args.language))
    else ProjectFromRun(script, n, Paths.Abs(args.projectDir, cwd), args, ConfigOf(args.language))
  }

  method RunProjectTool(w: World, args: ProjectArgs, cwd: string) returns (reply: Reply)
    requires w.Valid()
    modifies w
    ensures w.Valid()
    ensures w.log == old(w.log) + ProjectToolRun(w.script, |old(w.log)|, args, cwd).calls
    ensures reply == ProjectToolRun(w.script, |old(w.log)|, args, cwd).value
  {
    var valid := Languages.IsValid(args.language);
    if !valid {
      assert old(w.log) + [] == old(w.log);
      return Fault("unsupported language: " + args.language);
    }
    reply := ProjectFrom(w, Paths.Abs(args.projectDir, cwd), args, ConfigOf(args.language));
  }

  // The run_code tool

  /** The decoded arguments of `run_code`. */
  datatype CodeArgs = CodeArgs(code: string, language: Language, entrypoint: seq<string>)

  /** Where the Go source is mounted in the container. */
  const GoSource: string := "/tmp/main.go"

  /** The container command: the entrypoint followed by the mounted file
      for Go, by the code itself otherwise. */
  function CodeCommand(args: CodeArgs): seq<string>
  {
    if args.language == Languages.Go then args.entrypoint + [GoSource] else args.entrypoint + [args.code]
  }

  /** `os.WriteFile`'s permission bits, 0644. */
  const FileMode: int := 0x1A4

  /** For Go: a temporary directory holding the code as `main.go`, bound at
      `/tmp`.  Other languages get no file and no bind. */
  function CodeMountRun(script: nat -> Answer, n: nat, source: seq<byte>, lang: Language): Run<Result<seq<string>>>
  {
    if lang != Languages.Go then Run([], Ok([]))
    else
      var tmp := script(n);
      var write := script(n + 1);
      var file := WriteFile(Paths.Join(tmp.id, "main.go"), source, FileMode);
      if !tmp.ok then Run([MkdirTemp("docker-sandbox-*")], Err("failed to create temporary directory: " + tmp.err))
      else if !write.ok then Run([MkdirTemp("docker-sandbox-*"), file], Err("failed to write code to temporary file: " + write.err))
      else Run([MkdirTemp("docker-sandbox-*"), file], Ok([tmp.id + ":/tmp"]))
  }

  method MountCode(w: World, source: seq<byte>, lang: Language) returns (r: Result<seq<string>>)
    requires w.Valid()
    modifies w
    ensures w.Valid()
    ensures w.log == old(w.log) + CodeMountRun(w.script, |old(w.log)|, source, lang).calls
    ensures r == CodeMountRun(w.script, |old(w.log)|, source, lang).value
  {
    if lang != Languages.Go {
      assert old(w.log) + [] == old(w.log);
      return Ok([]);
    }
    var tmp := w.Call(MkdirTemp("docker-sandbox-*"));
    if !tmp.ok {
      return Err("failed to create temporary directory: " + tmp.err);
    }
    var write := w.Call(WriteFile(Paths.Join(tmp.id, "main.go"), source, FileMode));
    if !write.ok {
      return Err("failed to write code to temporary file: " + write.err);
    }
    return Ok([tmp.id + ":/tmp"]);
  }

  /** Create and start the container, wait for it, and return stdout
      followed by stderr. */
  function CodeLaunchRun(script: nat -> Answer, n: nat, cfg: Config, binds: seq<string>): Run<Result<string>>
  {
    var started := StartRun(script, n, cfg, binds);
    match started.value
    case Err(e) => Run(started.calls, Err(e))
    case Ok(id) =>
      var out := OutputRun(script, n + 2, id);
      Run(started.calls + out.calls, match out.value
        case Ok(o) => Ok(o.0 + o.1)
        case Err(e) => Err(e))
  }

  method LaunchCode(w: World, cfg: Config, binds: seq<string>) returns (r: Result<string>)
    requires w.Valid()
    modifies w
    ensures w.Valid()
    ensures w.log == old(w.log) + CodeLaunchRun(w.script, |old(w.log)|, cfg, binds).calls
    ensures r == CodeLaunchRun(w.script, |old(w.log)|, cfg, binds).value
  {
    var started := CreateAndStart(w, cfg, binds);
    if started.Err? {
      return Err(started.msg);
    }
    ghost var mid := w.log;
    var output := AwaitOutput(w, started.value);
    Assoc(old(w.log), mid[|old(w.log)|..], w.log[|mid|..]);
    match output
    case Ok(o) => r := Ok(o.0 + o.1);
    case Err(e) => r := Err(e);
  }

  /** Prepare the mount, then launch the container with its binds. */
  function MountLaunchRun(script: nat -> Answer, n: nat, cfg: Config, source: seq<byte>, lang: Language): Run<Result<string>>
  {
    var mount := CodeMountRun(script, n, source, lang);
    match mount.value
    case Err(e) => Run(mount.calls, Err(e))
    case Ok(binds) =>
      var launch := CodeLaunchRun(script, n + |mount.calls|, cfg, binds);
      Run(mount.calls + launch.calls, launch.value)
  }

  method MountAndLaunch(w: World, cfg: Config, source: seq<byte>, lang: Language) returns (r: Result<string>)
    requires w.Valid()
    modifies w
    ensures w.Valid()
    ensures w.log == old(w.log) + MountLaunchRun(w.script, |old(w.log)|, cfg, source, lang).calls
    ensures r == MountLaunchRun(w.script, |old(w.log)|, cfg, source, lang).value
  {
    var binds := MountCode(w, source, lang);
    if binds.Err? {
      MountFailed(w.script, |old(w.log)|, cfg, source, lang);
      return Err(binds.msg);
    }
    ghost var mid := w.log;
    MountLaunchSplit(w.script, |old(w.log)|, |mid|, cfg, source, lang);
    r := LaunchCode(w, cfg, binds.value);
    Assoc(old(w.log), CodeMountRun(w.script, |old(w.log)|, source, lang).calls,
          CodeLaunchRun(w.script, |mid|, cfg, binds.value).calls);
  }

  lemma MountFailed(script: nat -> Answer, n: nat, cfg: Config, source: seq<byte>, lang: Language)
    requires CodeMountRun(script, n, source, lang).value.Err?
    ensures MountLaunchRun(script, n, cfg, source, lang)
      == Run(CodeMountRun(script, n, source, lang).calls, Err(CodeMountRun(script, n, source, lang).value.msg))
  {
  }

  /** The run after a successful mount: the mount's calls, then the
      launch's, starting at `m`. */
  lemma MountLaunchSplit(script: nat -> Answer, n: nat, m: nat, cfg: Config, source: seq<byte>, lang: Language)
    requires CodeMountRun(script, n, source, lang).value.Ok?
    requires m == n + |CodeMountRun(script, n, source, lang).calls|
    ensures MountLaunchRun(script, n, cfg, source, lang)
      == Run(CodeMountRun(script, n, source, lang).calls
               + CodeLaunchRun(script, m, cfg, CodeMountRun(script, n, source, lang).value.value).calls,
             CodeLaunchRun(script, m, cfg, CodeMountRun(script, n, source, lang).value.value).value)
  {
  }

  /** `runInDocker`: pull the image from Docker Hub's library, mount and
      launch; the container's output, or the first error.  The container
      configuration `cfg` carries the image and the command. */
  function CodeDockerRun(script: nat -> Answer, n: nat, cfg: Config, source: seq<byte>, lang: Language): Run<Result<string>>
  {
    var pull := script(n);
    if !pull.ok then Run([Pull("docker.io/library/" + cfg.image)], Err("failed to pull Docker image " + cfg.image + ": " + pull.err))
    else
      var rest := MountLaunchRun(script, n + 1, cfg, source, lang);
      Run([Pull("docker.io/library/" + cfg.image)] + rest.calls, rest.value)
  }

  method RunInDocker(w: World, cfg: Config, source: seq<byte>, lang: Language) returns (r: Result<string>)
    requires w.Valid()
    modifies w
    ensures w.Valid()
    ensures w.log == old(w.log) + CodeDockerRun(w.script, |old(w.log)|, cfg, source, lang).calls
    ensures r == CodeDockerRun(w.script, |old(w.log)|, cfg, source, lang).value
  {
    var pull := w.Call(Pull("docker.io/library/" + cfg.image));
    if !pull.ok {
      return Err("failed to pull Docker image " + cfg.image + ": " + pull.err);
    }
    ghost var mid := w.log;
    PulledSplit(w.script, |old(w.log)|, |mid|, cfg, source, lang);
    r := MountAndLaunch(w, cfg, source, lang);
    Assoc(old(w.log), [Pull("docker.io/library/" + cfg.image)], MountLaunchRun(w.script, |mid|, cfg, source, lang).calls);
  }

  /** The run once the image is pulled: the pull, then the mount and
      launch from `m` on. */
  lemma PulledSplit(script: nat -> Answer, n: nat, m: nat, cfg: Config, source: seq<byte>, lang: Language)
    requires script(n).ok && m == n + 1
    ensures CodeDockerRun(script, n, cfg, source, lang)
      == Run([Pull("docker.io/library/" + cfg.image)] + MountLaunchRun(script, m, cfg, source, lang).calls,
             MountLaunchRun(script, m, cfg, source, lang).value)
  {
  }

  /** The `run_code` handler: validate the language, build the command,
      run; an engine error is plain text. */
  function CodeToolRun(script: nat -> Answer, n: nat, args: CodeArgs): Run<Reply>
  {
    if args.language !in Languages.AllLanguages then Run([], Fault("unsupported language: " + args.language))
    else
      var cfg := Config(ConfigOf(args.language).image, CodeCommand(args), "", false, false);
      var r := CodeDockerRun(script, n, cfg, Utf8.Encode(args.code), args.language);
      Run(r.calls, match r.value
        case Ok(logs) => Text(logs, false)
        case Err(e) => Text("Error: " + e, false))
  }

  method RunCodeTool(w: World, args: CodeArgs) returns (reply: Reply)
    requires w.Valid()
    modifies w
    ensures w.Valid()
    ensures w.log == old(w.log) + CodeToolRun(w.script, |old(w.log)|, args).calls
    ensures reply == CodeToolRun(w.script, |old(w.log)|, args).value
  {
    var valid := Languages.IsValid(args.language);
    if !valid {
      assert old(w.log) + [] == old(w.log);
      return Fault("unsupported language: " + args.language);
    }
    var config := ConfigOf(args.language);
    var cmd: seq<string>;
    if args.language == Languages.Go {
      cmd := args.entrypoint + [GoSource];
    } else {
      cmd := args.entrypoint + [args.code];
    }
    var logs := RunInDocker(w, Config(config.image, cmd, "", false, false), Utf8.Encode(args.code), args.language);
    match logs
    case Ok(text) => reply := Text(text, false);
    case Err(e) => reply := Text("Error: " + e, false);
  }

  // Properties of the two tools

  /** `run_code` refuses an unsupported language before any call, and
      makes a call for every supported one. */
  lemma CodeLanguageGate(script: nat -> Answer, n: nat, args: CodeArgs)
    ensures var r := CodeToolRun(script, n, args);
      && (r.calls == [] <==> args.language !in Languages.AllLanguages)
      && (args.language !in Languages.AllLanguages ==> r.value == Fault("unsupported language: " + args.language))
  {
  }

  /** `run_project` refuses an unsupported language before any call;
      for a supported one its first call stats the project directory,
      resolved against the working directory, and a missing directory is
      the only fault it reports then. */
  lemma ProjectDirChecked(script: nat -> Answer, n: nat, args: ProjectArgs, cwd: string)
    ensures var r := ProjectToolRun(script, n, args, cwd);
      && (r.calls == [] <==> args.language !in Languages.AllLanguages)
      && (args.language !in Languages.AllLanguages ==> r.value == Fault("unsupported language: " + args.language))
      && (args.language in Languages.AllLanguages ==>
            && r.calls[0] == Stat(Paths.Abs(args.projectDir, cwd))
            && (r.value.Fault? <==> !script(n).ok && script(n).missing))
  {
    if args.language in Languages.AllLanguages {
      var dir := Paths.Abs(args.projectDir, cwd);
      var config := ConfigOf(args.language);
      if script(n).ok || !script(n).missing {
        var r := ReplyRun(script, n + 1, args.entrypoint, dir, args.language, config, args.background);
        var out := ProjectRun(script, n + 1, args.entrypoint, dir, args.language, config, args.background);
        assert r.value == ProjectReply(out.value, args.background);
      }
    }
  }

  /** `runInDocker` pulls the image from Docker Hub's library before
      anything else, and a failed pull ends the run with its error;
      otherwise the mount and the launch follow. */
  lemma CodePullFirst(script: nat -> Answer, n: nat, cfg: Config, source: seq<byte>, lang: Language)
    ensures var r := CodeDockerRun(script, n, cfg, source, lang);
      && |r.calls| >= 1 && r.calls[0] == Pull("docker.io/library/" + cfg.image)
      && (!script(n).ok ==> |r.calls| == 1 && r.value == Err("failed to pull Docker image " + cfg.image + ": " + script(n).err))
      && (script(n).ok ==> r.calls[1..] == MountLaunchRun(script, n + 1, cfg, source, lang).calls
                           && r.value == MountLaunchRun(script, n + 1, cfg, source, lang).value)
  {
    if script(n).ok {
      var rest := MountLaunchRun(script, n + 1, cfg, source, lang);
      Halves([Pull("docker.io/library/" + cfg.image)], rest.calls);
    }
  }

  /** For Go the code is written, as given, to `main.go` in a fresh
      temporary directory, and the container is created with that
      directory bound at `/tmp`, where the command looks for the file. */
  lemma GoSourceMounted(script: nat -> Answer, n: nat, cfg: Config, source: seq<byte>)
    requires script(n).ok
    ensures var r := MountLaunchRun(script, n, cfg, source, Languages.Go);
      var tmp := script(n).id;
      && |r.calls| >= 2
      && r.calls[0] == MkdirTemp("docker-sandbox-*")
      && r.calls[1] == WriteFile(Paths.Join(tmp, "main.go"), source, FileMode)
      && (script(n + 1).ok ==> |r.calls| >= 3 && r.calls[2] == Create(cfg, [tmp + ":/tmp"], ""))
  {
    var mount := CodeMountRun(script, n, source, Languages.Go);
    assert |mount.calls| == 2;
  }

  /** For the other languages nothing is written on the host: the
      container is created at once, with no bind. */
  lemma OtherCodeInline(script: nat -> Answer, n: nat, cfg: Config, source: seq<byte>, lang: Language)
    requires lang != Languages.Go
    ensures var r := MountLaunchRun(script, n, cfg, source, lang);
      && |r.calls| >= 1 && r.calls[0] == Create(cfg, [], "")
      && forall k :: 0 <= k < |r.calls| ==> !r.calls[k].MkdirTemp? && !r.calls[k].WriteFile?
  {
  }

  /** The command keeps the entrypoint and appends one word: the mounted
      file for Go, the code itself otherwise. */
  lemma CodeCommandWords(args: CodeArgs)
    ensures var c := CodeCommand(args);
      && |c| == |args.entrypoint| + 1
      && c[..|args.entrypoint|] == args.entrypoint
      && c[|args.entrypoint|] == (if args.language == Languages.Go then GoSource else args.code)
  {
  }

  /** A successful run ends by starting the container just created,
      waiting for it, reading both of its streams and splitting them; the
      result is its stdout followed by its stderr. */
  lemma CodeOutput(script: nat -> Answer, n: nat, cfg: Config, source: seq<byte>, lang: Language)
    requires MountLaunchRun(script, n, cfg, source, lang).value.Ok?
    ensures var r := MountLaunchRun(script, n, cfg, source, lang);
      var m := |r.calls|;
      var id := script(n + m - 5).id;
      && m >= 5
      && r.calls[m - 4..] == [Start(id), Wait(id), Logs(id, true, true), Demux(id)]
      && r.value == Ok(script(n + m - 1).stdout + script(n + m - 1).stderr)
  {
    var mount := CodeMountRun(script, n, source, lang);
    var k := n + |mount.calls|;
    MountLaunchSplit(script, n, k, cfg, source, lang);
    var launch := CodeLaunchRun(script, k, cfg, mount.value.value);
    LaunchOutput(script, k, cfg, mount.value.value);
    Halves(mount.calls, launch.calls);
    assert (mount.calls + launch.calls)[|mount.calls| + 1..] == launch.calls[1..];
  }

  lemma LaunchOutput(script: nat -> Answer, k: nat, cfg: Config, binds: seq<string>)
    requires CodeLaunchRun(script, k, cfg, binds).value.Ok?
    ensures var r := CodeLaunchRun(script, k, cfg, binds);
      var id := script(k).id;
      && r.calls == [Create(cfg, binds, ""), Start(id), Wait(id), Logs(id, true, true), Demux(id)]
      && r.value == Ok(script(k + 4).stdout + script(k + 4).stderr)
  {
  }

  /** With the registry's Node entry, a TypeScript entry file gets Node's
      type-stripping flags and a JavaScript one plain `node`, in place of
      the first word; the remaining words are kept.  Any other last word
      leaves the command as given. */
  lemma NodeCommandByExtension(cmd: seq<string>)
    requires |cmd| > 0
    ensures var e := Paths.Ext(cmd[|cmd| - 1]);
      var r := NodeRewrite(Registry[Languages.NodeJS].fileExtensions, cmd);
      && (e == ".ts" || e == ".tsx" ==> r == Some(NodeTypeScript + cmd[1..]))
      && (e == ".js" || e == ".jsx" ==> r == Some(["node"] + cmd[1..]))
      && (e != ".ts" && e != ".tsx" && e != ".js" && e != ".jsx" ==> r == Some(cmd))
  {
  }

  /** A background project run never waits for its container, and the
      output it reports only says where the logs are. */
  lemma BackgroundNeverWaits(script: nat -> Answer, n: nat, cmd: seq<string>, dir: string, lang: Language,
                             config: SandboxConfig)
    ensures var r := ComposeRun(script, n, cmd, dir, lang, config, true);
      && (forall k :: 0 <= k < |r.calls| ==> !r.calls[k].Wait?)
      && (r.value.Finished? ==> r.value.logs == RunProject.BackgroundNote(r.value.id))
  {
    var probe := Projects.ProbeRun(script, n, dir, config.dependencyFiles);
    Projects.ProbeOnlyStats(script, n, dir, config.dependencyFiles);
    match ComposeCommand(lang, config.fileExtensions, probe.value, cmd)
    case None =>
    case Some(c) =>
      RunProject.BackgroundNeverWaits(script, n + |probe.calls|, c, config.image, dir);
  }
}
