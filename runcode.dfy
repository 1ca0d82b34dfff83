/** The `run_code` tool of the code sandbox (`tools/run_code.go`): the
    argument checks, the progress notifications, the language's command,
    and `runInDocker` — pull, the code file for Go and Node.js, create,
    start, the loop that waits for the container while reporting progress,
    and the logs. */
module RunCode {
  import opened Wrappers
  import Paths
  import Utf8
  import opened Engine
  import opened Mcp
  import opened Languages

  type byte = Utf8.byte

  /** What the loop of `runInDocker` takes next: a tick of the one-second
      ticker, the close of `waitDone` once the container wait returned, or
      the end of the request's context.  When several are ready, which one
      `select` picks is part of the stream. */
  datatype Event = Tick | WaitDone | Cancelled

  /** The stream eventually brings something other than a tick: the wait
      returns or the request is cancelled. */
  ghost predicate Ends(events: nat -> Event)
  {
    exists k: nat :: events(k) != Tick
  }

  /** The number of ticks before the loop's last event. */
  ghost function FirstEnd(events: nat -> Event): (k: nat)
    requires Ends(events)
    ensures events(k) != Tick
    ensures forall j :: 0 <= j < k ==> events(j) == Tick
  {
    var w: nat :| events(w) != Tick;
    EndFrom(events, 0, w)
  }

  ghost function EndFrom(events: nat -> Event, i: nat, w: nat): (k: nat)
    requires i <= w && events(w) != Tick
    requires forall j :: 0 <= j < i ==> events(j) == Tick
    ensures i <= k <= w && events(k) != Tick
    ensures forall j :: 0 <= j < k ==> events(j) == Tick
    decreases w - i
  {
    if events(i) != Tick then i else EndFrom(events, i + 1, w)
  }

  /** The progress reported before the loop starts. */
  const LoopStart: int := 50

  /** The notifications of the first `k` ticks: each adds 5 to the
      progress, starting from 50. */
  function TickNotes(k: nat): (r: seq<Call>)
    ensures |r| == k
    ensures forall j :: 0 <= j < k ==> r[j] == Notify(LoopStart + 5 * (j + 1))
  {
    if k == 0 then [] else TickNotes(k - 1) + [Notify(LoopStart + 5 * k)]
  }

  /** The wait goroutine's `ContainerWait` (issued right after the start)
      and the select loop: one notification per tick until the wait is
      done or the context ends; cancellation yields the context's error
      `ctxErr`, a finished wait its own error if it had one. */
  ghost function WatchRun(script: nat -> Answer, n: nat, events: nat -> Event, ctxErr: string, id: string): Run<Status>
    requires Ends(events)
  {
    var k := FirstEnd(events);
    var wait := script(n);
    Run([Wait(id)] + TickNotes(k),
        if events(k) == Cancelled then Failure(ctxErr)
        else if !wait.ok then Failure("error waiting for container: " + wait.err)
        else Success)
  }

  /** The select loop up to its last event: notify once per tick, the
      progress going up by 5 each time.  Yields the index of the event that
      ended the loop. */
  method Ticks(w: World, events: nat -> Event) returns (i: nat)
    requires w.Valid() && Ends(events)
    modifies w
    ensures w.Valid()
    ensures i == FirstEnd(events)
    ensures w.log == old(w.log) + TickNotes(i)
  {
    ghost var k := FirstEnd(events);
    var progress := LoopStart;
    i := 0;
    while events(i) == Tick
      invariant i <= k
      invariant progress == LoopStart + 5 * i
      invariant w.Valid()
      invariant w.log == old(w.log) + TickNotes(i)
      decreases k - i
    {
      progress := progress + 5;
      // a failed notification is only printed
      var sent := w.Call(Notify(progress));
      Assoc(old(w.log), TickNotes(i), [Notify(progress)]);
      assert TickNotes(i + 1) == TickNotes(i) + [Notify(progress)];
      i := i + 1;
    }
  }

  method Watch(w: World, events: nat -> Event, ctxErr: string, id: string) returns (st: Status)
    requires w.Valid() && Ends(events)
    modifies w
    ensures w.Valid()
    ensures w.log == old(w.log) + WatchRun(w.script, |old(w.log)|, events, ctxErr, id).calls
    ensures st == WatchRun(w.script, |old(w.log)|, events, ctxErr, id).value
  {
    var wait := w.Call(Wait(id));
    var i := Ticks(w, events);
    Assoc(old(w.log), [Wait(id)], TickNotes(i));
    if events(i) == Cancelled {
      return Failure(ctxErr);
    }
    if !wait.ok {
      return Failure("error waiting for container: " + wait.err);
    }
    return Success;
  }

  /** `ContainerLogs` with empty options, then `stdcopy.StdCopy`: stdout
      followed directly by stderr. */
  function CollectRun(script: nat -> Answer, n: nat, id: string): Run<Result<string>>
  {
    var logs := script(n);
    var demux := script(n + 1);
    if !logs.ok then Run([Logs(id, false, false)], Err("failed to get container logs: " + logs.err))
    else if !demux.ok then Run([Logs(id, false, false), Demux(id)], Err("failed to copy container output: " + demux.err))
    else Run([Logs(id, false, false), Demux(id)], Ok(demux.stdout + demux.stderr))
  }

  method Collect(w: World, id: string) returns (r: Result<string>)
    requires w.Valid()
    modifies w
    ensures w.Valid()
    ensures w.log == old(w.log) + CollectRun(w.script, |old(w.log)|, id).calls
    ensures r == CollectRun(w.script, |old(w.log)|, id).value
  {
    var logs := w.Call(Logs(id, false, false));
    if !logs.ok {
      return Err("failed to get container logs: " + logs.err);
    }
    var demux := w.Call(Demux(id));
    if !demux.ok {
      return Err("failed to copy container output: " + demux.err);
    }
    return Ok(demux.stdout + demux.stderr);
  }

  /** Watch the started container, then collect its output. */
  ghost function FinishRun(script: nat -> Answer, n: nat, events: nat -> Event, ctxErr: string, id: string): Run<Result<string>>
    requires Ends(events)
  {
    var watch := WatchRun(script, n, events, ctxErr, id);
    match watch.value
    case Failure(e) => Run(watch.calls, Err(e))
    case Success =>
      var out := CollectRun(script, n + |watch.calls|, id);
      Run(watch.calls + out.calls, out.value)
  }

  method Finish(w: World, events: nat -> Event, ctxErr: string, id: string) returns (r: Result<string>)
    requires w.Valid() && Ends(events)
    modifies w
    ensures w.Valid()
    ensures w.log == old(w.log) + FinishRun(w.script, |old(w.log)|, events, ctxErr, id).calls
    ensures r == FinishRun(w.script, |old(w.log)|, events, ctxErr, id).value
  {
    var st := Watch(w, events, ctxErr, id);
    if st.Failure? {
      return Err(st.err);
    }
    ghost var mid := w.log;
    r := Collect(w, id);
    Assoc(old(w.log), mid[|old(w.log)|..], w.log[|mid|..]);
  }

  /** Create and start the container, then finish the run. */
  ghost function LaunchRun(script: nat -> Answer, n: nat, events: nat -> Event, ctxErr: string,
                           cfg: Config, binds: seq<string>): Run<Result<string>>
    requires Ends(events)
  {
    var started := StartRun(script, n, cfg, binds);
    match started.value
    case Err(e) => Run(started.calls, Err(e))
    case Ok(id) =>
      var fin := FinishRun(script, n + 2, events, ctxErr, id);
      Run(started.calls + fin.calls, fin.value)
  }

  method Launch(w: World, events: nat -> Event, ctxErr: string, cfg: Config, binds: seq<string>) returns (r: Result<string>)
    requires w.Valid() && Ends(events)
    modifies w
    ensures w.Valid()
    ensures w.log == old(w.log) + LaunchRun(w.script, |old(w.log)|, events, ctxErr, cfg, binds).calls
    ensures r == LaunchRun(w.script, |old(w.log)|, events, ctxErr, cfg, binds).value
  {
    var started := CreateAndStart(w, cfg, binds);
    if started.Err? {
      return Err(started.msg);
    }
    ghost var mid := w.log;
    r := Finish(w, events, ctxErr, started.value);
    Assoc(old(w.log), mid[|old(w.log)|..], w.log[|mid|..]);
  }

  /** The file the code is written to: `main.go` for Go, `main.ts` for
      Node.js; any other language gets no file and no mount. */
  function SourceName(lang: Language): (name: Option<string>)
    ensures name.Some? <==> lang == Go || lang == NodeJS
  {
    if lang == Go then Some("main.go")
    else if lang == NodeJS then Some("main.ts")
    else None
  }

  /** The host configuration and working directory of the container: no
      binds and the image's own directory, or the temporary directory
      mounted at `/app`. */
  datatype Mount = Mount(binds: seq<string>, workingDir: string)

  /** `os.WriteFile`'s permission bits, 0644. */
  const FileMode: int := 0x1A4

  /** For Go and Node.js: a temporary directory holding the code, mounted
      at `/app`, which becomes the working directory. */
  function MountRun(script: nat -> Answer, n: nat, code: seq<byte>, lang: Language): Run<Result<Mount>>
  {
    match SourceName(lang)
    case None => Run([], Ok(Mount([], "")))
    case Some(name) =>
      var tmp := script(n);
      var write := script(n + 1);
      var file := WriteFile(Paths.Join(tmp.id, name), code, FileMode);
      if !tmp.ok then Run([MkdirTemp("docker-sandbox-*")], Err("failed to create temporary directory: " + tmp.err))
      else if !write.ok then Run([MkdirTemp("docker-sandbox-*"), file], Err("failed to write code to temporary file: " + write.err))
      else Run([MkdirTemp("docker-sandbox-*"), file], Ok(Mount([tmp.id + ":/app"], "/app")))
  }

  method MountCode(w: World, code: seq<byte>, lang: Language) returns (r: Result<Mount>)
    requires w.Valid()
    modifies w
    ensures w.Valid()
    ensures w.log == old(w.log) + MountRun(w.script, |old(w.log)|, code, lang).calls
    ensures r == MountRun(w.script, |old(w.log)|, code, lang).value
  {
    var name := SourceName(lang);
    if name.None? {
      assert old(w.log) + [] == old(w.log);
      return Ok(Mount([], ""));
    }
    var tmp := w.Call(MkdirTemp("docker-sandbox-*"));
    if !tmp.ok {
      return Err("failed to create temporary directory: " + tmp.err);
    }
    var write := w.Call(WriteFile(Paths.Join(tmp.id, name.value), code, FileMode));
    if !write.ok {
      return Err("failed to write code to temporary file: " + write.err);
    }
    return Ok(Mount([tmp.id + ":/app"], "/app"));
  }

  /** Pull the image as named, then prepare the mount. */
  function PrepareRun(script: nat -> Answer, n: nat, image: string, code: seq<byte>, lang: Language): Run<Result<Mount>>
  {
    var pull := script(n);
    if !pull.ok then Run([Pull(image)], Err("failed to pull Docker image " + image + ": " + pull.err))
    else
      var mount := MountRun(script, n + 1, code, lang);
      Run([Pull(image)] + mount.calls, mount.value)
  }

  method Prepare(w: World, image: string, code: seq<byte>, lang: Language) returns (r: Result<Mount>)
    requires w.Valid()
    modifies w
    ensures w.Valid()
    ensures w.log == old(w.log) + PrepareRun(w.script, |old(w.log)|, image, code, lang).calls
    ensures r == PrepareRun(w.script, |old(w.log)|, image, code, lang).value
  {
    var pull := w.Call(Pull(image));
    if !pull.ok {
      return Err("failed to pull Docker image " + image + ": " + pull.err);
    }
    ghost var mid := w.log;
    r := MountCode(w, code, lang);
    Assoc(old(w.log), [Pull(image)], w.log[|mid|..]);
  }

  /** `runInDocker`: the container's output, or the first error. */
  ghost function DockerRun(script: nat -> Answer, n: nat, events: nat -> Event, ctxErr: string,
                           cmd: seq<string>, image: string, code: seq<byte>, lang: Language): Run<Result<string>>
    requires Ends(events)
  {
    var prep := PrepareRun(script, n, image, code, lang);
    match prep.value
    case Err(e) => Run(prep.calls, Err(e))
    case Ok(mount) =>
      var launch := LaunchRun(script, n + |prep.calls|, events, ctxErr,
                              Config(image, cmd, mount.workingDir, false, false), mount.binds);
      Run(prep.calls + launch.calls, launch.value)
  }

  method RunInDocker(w: World, events: nat -> Event, ctxErr: string, cmd: seq<string>, image: string,
                     code: seq<byte>, lang: Language) returns (r: Result<string>)
    requires w.Valid() && Ends(events)
    modifies w
    ensures w.Valid()
    ensures w.log == old(w.log) + DockerRun(w.script, |old(w.log)|, events, ctxErr, cmd, image, code, lang).calls
    ensures r == DockerRun(w.script, |old(w.log)|, events, ctxErr, cmd, image, code, lang).value
  {
    var mount := Prepare(w, image, code, lang);
    if mount.Err? {
      return Err(mount.msg);
    }
    ghost var mid := w.log;
    r := Launch(w, events, ctxErr, Config(image, cmd, mount.value.workingDir, false, false), mount.value.binds);
    Assoc(old(w.log), mid[|old(w.log)|..], w.log[|mid|..]);
  }

  /** The command Go runs instead of its registry entry: create a module,
      resolve its imports, run. */
  const GoCommand: seq<string> := ["/bin/sh", "-c", "go mod init sandbox && go mod tidy && go run main.go"]

  /** The command of the container: the registry's run command, except
      for Go. */
  function CommandFor(lang: Language, config: LanguageConfig): (cmd: seq<string>)
    ensures lang == Go ==> cmd == GoCommand
    ensures lang != Go ==> cmd == config.runCommand
  {
    if lang == Go then GoCommand else config.runCommand
  }

  /** The handler's reply: the output as text, an error as an error-flagged
      result. */
  function ReplyOf(r: Result<string>): (reply: Reply)
    ensures reply.Text? && (reply.isError <==> r.Err?)
    ensures r.Ok? ==> reply.text == r.value
    ensures r.Err? ==> reply.text == "Error: " + r.msg
  {
    match r
    case Ok(logs) => Text(logs, false)
    case Err(e) => Text("Error: " + e, true)
  }

  /** The run proper, followed by the final notification of 100, sent
      whatever the run's outcome. */
  ghost function ReportRun(script: nat -> Answer, n: nat, events: nat -> Event, ctxErr: string,
                           lang: Language, config: LanguageConfig, code: string): Run<Reply>
    requires Ends(events)
  {
    var docker := DockerRun(script, n, events, ctxErr, CommandFor(lang, config), config.image,
                            Utf8.ToValid(Utf8.Encode(code)), lang);
    Run(docker.calls + [Notify(100)], ReplyOf(docker.value))
  }

  method Report(w: World, events: nat -> Event, ctxErr: string, lang: Language, config: LanguageConfig, code: string)
    returns (reply: Reply)
    requires w.Valid() && Ends(events)
    modifies w
    ensures w.Valid()
    ensures w.log == old(w.log) + ReportRun(w.script, |old(w.log)|, events, ctxErr, lang, config, code).calls
    ensures reply == ReportRun(w.script, |old(w.log)|, events, ctxErr, lang, config, code).value
  {
    var cmd := CommandFor(lang, config);
    var escaped := Utf8.ToValid(Utf8.Encode(code));
    var logs := RunInDocker(w, events, ctxErr, cmd, config.image, escaped, lang);
    ghost var mid := w.log;
    // a failed notification here is ignored
    var done := w.Call(Notify(100));
    Assoc(old(w.log), mid[|old(w.log)|..], [Notify(100)]);
    reply := ReplyOf(logs);
  }

  /** After the first notification: report 50 (ignoring a failure), then
      run and report. */
  ghost function ExecuteRun(script: nat -> Answer, n: nat, events: nat -> Event, ctxErr: string,
                            lang: Language, config: LanguageConfig, code: string): Run<Reply>
    requires Ends(events)
  {
    var rest := ReportRun(script, n + 1, events, ctxErr, lang, config, code);
    Run([Notify(50)] + rest.calls, rest.value)
  }

  method Execute(w: World, events: nat -> Event, ctxErr: string, lang: Language, config: LanguageConfig, code: string)
    returns (reply: Reply)
    requires w.Valid() && Ends(events)
    modifies w
    ensures w.Valid()
    ensures w.log == old(w.log) + ExecuteRun(w.script, |old(w.log)|, events, ctxErr, lang, config, code).calls
    ensures reply == ExecuteRun(w.script, |old(w.log)|, events, ctxErr, lang, config, code).value
  {
    // a failed notification here is ignored
    var half := w.Call(Notify(50));
    ghost var mid := w.log;
    reply := Report(w, events, ctxErr, lang, config, code);
    Assoc(old(w.log), [Notify(50)], w.log[|mid|..]);
  }

  /** Everything after the arguments were read, given the registry entry
      `config` of `lang` (the zero entry for a tag not in the registry):
      a failed first notification ends the call. */
  ghost function SandboxRunWith(script: nat -> Answer, n: nat, events: nat -> Event, ctxErr: string,
                                lang: Language, config: LanguageConfig, code: string): Run<Reply>
    requires Ends(events)
  {
    if !script(n).ok then Run([Notify(10)], Text("Could not send progress to client", true))
    else
      var rest := ExecuteRun(script, n + 1, events, ctxErr, lang, config, code);
      Run([Notify(10)] + rest.calls, rest.value)
  }

  method RunWith(w: World, events: nat -> Event, ctxErr: string, lang: Language, config: LanguageConfig, code: string)
    returns (reply: Reply)
    requires w.Valid() && Ends(events)
    modifies w
    ensures w.Valid()
    ensures w.log == old(w.log) + SandboxRunWith(w.script, |old(w.log)|, events, ctxErr, lang, config, code).calls
    ensures reply == SandboxRunWith(w.script, |old(w.log)|, events, ctxErr, lang, config, code).value
  {
    var first := w.Call(Notify(10));
    if !first.ok {
      return Text("Could not send progress to client", true);
    }
    ghost var mid := w.log;
    reply := Execute(w, events, ctxErr, lang, config, code);
    Assoc(old(w.log), [Notify(10)], w.log[|mid|..]);
  }

  /** `RunCodeSandbox`: the handler of the `run_code` tool. */
  ghost function SandboxRun(script: nat -> Answer, n: nat, events: nat -> Event, ctxErr: string, args: Args): Run<Reply>
    requires Ends(events)
  {
    match GetStr(args, "language")
    case None => Run([], Text("Language not supported: " + Show(Lookup(args, "language")), true))
    case Some(lang) =>
      match GetStr(args, "code")
      case None => Run([], Text("language must be a string", true))
      case Some(code) => SandboxRunWith(script, n, events, ctxErr, lang, ConfigOf(lang), code)
  }

  method RunCodeSandbox(w: World, events: nat -> Event, ctxErr: string, args: Args) returns (reply: Reply)
    requires w.Valid() && Ends(events)
    modifies w
    ensures w.Valid()
    ensures w.log == old(w.log) + SandboxRun(w.script, |old(w.log)|, events, ctxErr, args).calls
    ensures reply == SandboxRun(w.script, |old(w.log)|, events, ctxErr, args).value
  {
    var lang := GetStr(args, "language");
    if lang.None? {
      assert old(w.log) + [] == old(w.log);
      return Text("Language not supported: " + Show(Lookup(args, "language")), true);
    }
    var code := GetStr(args, "code");
    if code.None? {
      assert old(w.log) + [] == old(w.log);
      return Text("language must be a string", true);
    }
    reply := RunWith(w, events, ctxErr, lang.value, ConfigOf(lang.value), code.value);
  }

  // Properties

  /** The loop notifies once per tick before its last event and never
      after it: the j-th notification carries 50 + 5j.  Cancellation wins
      over the wait's own result; a finished wait fails exactly when the
      wait call did. */
  lemma WatchProgress(script: nat -> Answer, n: nat, events: nat -> Event, ctxErr: string, id: string)
    requires Ends(events)
    ensures var r := WatchRun(script, n, events, ctxErr, id);
      var k := FirstEnd(events);
      && |r.calls| == k + 1 && r.calls[0] == Wait(id)
      && (forall j :: 1 <= j <= k ==> r.calls[j] == Notify(LoopStart + 5 * j))
      && (events(k) == Cancelled ==> r.value == Failure(ctxErr))
      && (events(k) == WaitDone ==> (r.value == Success <==> script(n).ok))
  {
    var r := WatchRun(script, n, events, ctxErr, id);
    var k := FirstEnd(events);
    forall j | 1 <= j <= k
      ensures r.calls[j] == Notify(LoopStart + 5 * j)
    {
      assert r.calls[j] == TickNotes(k)[j - 1];
    }
  }

  /** The progress is not capped: after more than ten ticks a notification
      reports 105, above the final 100. */
  lemma ProgressPassesHundred(script: nat -> Answer, n: nat, events: nat -> Event, ctxErr: string, id: string)
    requires Ends(events) && FirstEnd(events) > 10
    ensures Notify(105) in WatchRun(script, n, events, ctxErr, id).calls
  {
    var r := WatchRun(script, n, events, ctxErr, id);
    assert r.calls[11] == TickNotes(FirstEnd(events))[10];
  }

  /** The output is read only after the wait finished without error and
      the context was not cancelled; the logs request selects neither
      stream; the reply is stdout followed directly by stderr. */
  lemma OutputAfterWait(script: nat -> Answer, n: nat, events: nat -> Event, ctxErr: string, id: string)
    requires Ends(events)
    ensures var r := FinishRun(script, n, events, ctxErr, id);
      var k := FirstEnd(events);
      && r.calls[0] == Wait(id)
      && (r.value.Ok? <==> events(k) == WaitDone && script(n).ok && script(n + k + 1).ok && script(n + k + 2).ok)
      && (r.value.Ok? ==> r.calls[k + 1..] == [Logs(id, false, false), Demux(id)]
                          && r.value.value == script(n + k + 2).stdout + script(n + k + 2).stderr)
  {
    WatchProgress(script, n, events, ctxErr, id);
  }

  /** The calls that follow the create: start, wait, notifications and
      output. */
  predicate AfterCreate(c: Call)
  {
    c.Start? || c.Wait? || c.Notify? || c.Logs? || c.Demux?
  }

  /** A call that writes to the host. */
  predicate HostWrite(c: Call)
  {
    c.WriteFile? || c.MkdirTemp?
  }

  lemma FinishCalls(script: nat -> Answer, n: nat, events: nat -> Event, ctxErr: string, id: string)
    requires Ends(events)
    ensures forall c | c in FinishRun(script, n, events, ctxErr, id).calls :: c.Wait? || c.Notify? || c.Logs? || c.Demux?
  {
    var watch := WatchRun(script, n, events, ctxErr, id);
    var k := FirstEnd(events);
    assert watch.calls == [Wait(id)] + TickNotes(k);
    forall c | c in TickNotes(k)
      ensures c.Notify?
    {
      var j :| 0 <= j < k && TickNotes(k)[j] == c;
    }
  }

  /** After the pull and the mount, `runInDocker` creates the container
      first and then makes no other create and no host write. */
  lemma LaunchCreatesOnce(script: nat -> Answer, n: nat, events: nat -> Event, ctxErr: string,
                          cfg: Config, binds: seq<string>)
    requires Ends(events)
    ensures var r := LaunchRun(script, n, events, ctxErr, cfg, binds);
      && |r.calls| > 0 && r.calls[0] == Create(cfg, binds, "")
      && forall c | c in r.calls[1..] :: AfterCreate(c)
  {
    var started := StartRun(script, n, cfg, binds);
    var r := LaunchRun(script, n, events, ctxErr, cfg, binds);
    if started.value.Ok? {
      var fin := FinishRun(script, n + 2, events, ctxErr, started.value.value);
      FinishCalls(script, n + 2, events, ctxErr, started.value.value);
      assert r.calls[1..] == [Start(script(n).id)] + fin.calls;
    }
  }

  /** For Go and Node.js, with the pull, the temporary directory and the
      write done, the code is the file `main.go` or `main.ts` of that
      directory, and the container is created with the directory mounted
      at `/app` as its working directory. */
  lemma MountedCode(script: nat -> Answer, n: nat, events: nat -> Event, ctxErr: string,
                    cmd: seq<string>, image: string, code: seq<byte>, lang: Language)
    requires Ends(events) && SourceName(lang).Some?
    requires script(n).ok && script(n + 1).ok && script(n + 2).ok
    ensures var r := DockerRun(script, n, events, ctxErr, cmd, image, code, lang);
      var tmp := script(n + 1).id;
      && r.calls[..3] == [Pull(image), MkdirTemp("docker-sandbox-*"), WriteFile(Paths.Join(tmp, SourceName(lang).value), code, FileMode)]
      && r.calls[3] == Create(Config(image, cmd, "/app", false, false), [tmp + ":/app"], "")
  {
    var tmp := script(n + 1).id;
    LaunchCreatesOnce(script, n + 3, events, ctxErr, Config(image, cmd, "/app", false, false), [tmp + ":/app"]);
  }

  /** Any other language, Python included, gets no file: no call writes
      or makes a directory on the host. */
  lemma CodeNotDelivered(script: nat -> Answer, n: nat, events: nat -> Event, ctxErr: string,
                         cmd: seq<string>, image: string, code: seq<byte>, lang: Language)
    requires Ends(events) && SourceName(lang).None?
    ensures forall c | c in DockerRun(script, n, events, ctxErr, cmd, image, code, lang).calls :: !HostWrite(c)
  {
    var r := DockerRun(script, n, events, ctxErr, cmd, image, code, lang);
    var prep := PrepareRun(script, n, image, code, lang);
    if prep.value.Ok? {
      assert prep.calls == [Pull(image)] && prep.value.value == Mount([], "");
      var cfg := Config(image, cmd, "", false, false);
      var launch := LaunchRun(script, n + 1, events, ctxErr, cfg, []);
      LaunchCreatesOnce(script, n + 1, events, ctxErr, cfg, []);
      assert r.calls == [Pull(image), Create(cfg, [], "")] + launch.calls[1..];
    } else {
      assert r.calls == [Pull(image)];
    }
  }

  /** ... and the container is created with no mount, running its command
      in the image's working directory. */
  lemma UnmountedCreate(script: nat -> Answer, n: nat, events: nat -> Event, ctxErr: string,
                        cmd: seq<string>, image: string, code: seq<byte>, lang: Language)
    requires Ends(events) && SourceName(lang).None? && script(n).ok
    ensures var r := DockerRun(script, n, events, ctxErr, cmd, image, code, lang);
      r.calls[..2] == [Pull(image), Create(Config(image, cmd, "", false, false), [], "")]
  {
    var cfg := Config(image, cmd, "", false, false);
    LaunchCreatesOnce(script, n + 1, events, ctxErr, cfg, []);
  }

  /** The command of each language and the file it runs: Go's override
      and Node.js run the file written for them, while Python's registry
      command runs `main.py`, which no call writes. */
  lemma CommandNamesSource()
    ensures CommandFor(Go, ConfigOf(Go)) == GoCommand != ConfigOf(Go).runCommand
    ensures CommandFor(NodeJS, ConfigOf(NodeJS)) == ["bun", "run", SourceName(NodeJS).value]
    ensures CommandFor(Python, ConfigOf(Python)) == ["uvx", "run", "main.py"] && SourceName(Python).None?
  {
  }

  /** The calls of a request whose first notification went through. */
  lemma RunWithCalls(script: nat -> Answer, n: nat, events: nat -> Event, ctxErr: string,
                     lang: Language, config: LanguageConfig, code: string)
    requires Ends(events) && script(n).ok
    ensures SandboxRunWith(script, n, events, ctxErr, lang, config, code).calls
         == [Notify(10)] + ([Notify(50)]
            + (DockerRun(script, n + 2, events, ctxErr, CommandFor(lang, config), config.image,
                         Utf8.ToValid(Utf8.Encode(code)), lang).calls
               + [Notify(100)]))
  {
    var rest := ExecuteRun(script, n + 1, events, ctxErr, lang, config, code);
    var report := ReportRun(script, n + 2, events, ctxErr, lang, config, code);
    assert rest.calls == [Notify(50)] + report.calls;
  }

  /** The first notification reports 10; when it cannot be sent nothing
      else happens and the request fails. */
  lemma FirstMilestone(script: nat -> Answer, n: nat, events: nat -> Event, ctxErr: string,
                       lang: Language, config: LanguageConfig, code: string)
    requires Ends(events)
    ensures var r := SandboxRunWith(script, n, events, ctxErr, lang, config, code);
      && |r.calls| > 0 && r.calls[0] == Notify(10)
      && (r.calls == [Notify(10)] <==> !script(n).ok)
      && (!script(n).ok ==> r.value == Text("Could not send progress to client", true))
  {
    if script(n).ok {
      RunWithCalls(script, n, events, ctxErr, lang, config, code);
    }
  }

  /** Once 10 was sent, 50 comes next, then the pull of the registry's
      image, and 100 last, whatever the run's outcome. */
  lemma Milestones(script: nat -> Answer, n: nat, events: nat -> Event, ctxErr: string,
                   lang: Language, config: LanguageConfig, code: string)
    requires Ends(events) && script(n).ok
    ensures var r := SandboxRunWith(script, n, events, ctxErr, lang, config, code);
      && |r.calls| > 3 && r.calls[1] == Notify(50) && r.calls[2] == Pull(config.image)
      && r.calls[|r.calls| - 1] == Notify(100)
  {
    var docker := DockerRun(script, n + 2, events, ctxErr, CommandFor(lang, config), config.image,
                            Utf8.ToValid(Utf8.Encode(code)), lang);
    RunWithCalls(script, n, events, ctxErr, lang, config, code);
    assert docker.calls[0] == Pull(config.image);
  }

  /** A request whose language or code is not a string is refused before
      any call; a language outside the registry is not refused: with the
      zero entry, its empty image is pulled. */
  lemma LanguageChecks(script: nat -> Answer, n: nat, events: nat -> Event, ctxErr: string, args: Args)
    requires Ends(events)
    ensures var r := SandboxRun(script, n, events, ctxErr, args);
      && (r.calls == [] <==> GetStr(args, "language").None? || GetStr(args, "code").None?)
      && (GetStr(args, "language").None? ==> r.value == Text("Language not supported: " + Show(Lookup(args, "language")), true))
      && (GetStr(args, "language").Some? && GetStr(args, "language").value !in SupportedLanguages
          && GetStr(args, "code").Some? && script(n).ok
          ==> r.calls[2] == Pull(""))
  {
    match GetStr(args, "language")
    case None =>
    case Some(lang) =>
      match GetStr(args, "code")
      case None =>
      case Some(code) =>
        FirstMilestone(script, n, events, ctxErr, lang, ConfigOf(lang), code);
        if script(n).ok {
          Milestones(script, n, events, ctxErr, lang, ConfigOf(lang), code);
        }
  }
}
