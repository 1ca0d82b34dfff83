/** The `write_file` tool (`tools/write-file.go`): write text into a file
    in a container by streaming it into a `cat >` exec and waiting for
    that exec to finish. */
module WriteFile {
  import opened Wrappers
  import Strs
  import Paths
  import Destinations
  import opened Engine
  import opened Mcp

  /** `ensureDirectoryExists`: create and start a `mkdir -p` exec, which
      is not waited for. */
  function EnsureDirRun(script: nat -> Answer, n: nat, target: string, dir: string): Run<Status>
  {
    var create := ExecCreate(target, ["mkdir", "-p", dir], false);
    if !script(n).ok then Run([create], Failure("failed to create exec for mkdir: " + script(n).err))
    else
      var start := ExecStart(script(n).id);
      if !script(n + 1).ok then Run([create, start], Failure("failed to start exec for mkdir: " + script(n + 1).err))
      else Run([create, start], Success)
  }

  method EnsureDirectoryExists(w: World, target: string, dir: string) returns (st: Status)
    requires w.Valid()
    modifies w
    ensures w.Valid()
    ensures w.log == old(w.log) + EnsureDirRun(w.script, |old(w.log)|, target, dir).calls
    ensures st == EnsureDirRun(w.script, |old(w.log)|, target, dir).value
  {
    var exec := w.Call(ExecCreate(target, ["mkdir", "-p", dir], false));
    if !exec.ok {
      return Failure("failed to create exec for mkdir: " + exec.err);
    }
    var start := w.Call(ExecStart(exec.id));
    if !start.ok {
      return Failure("failed to start exec for mkdir: " + start.err);
    }
    return Success;
  }

  /** The command that writes the file: the path is pasted into the shell
      line unquoted. */
  function CatCommand(path: string): seq<string>
  {
    ["sh", "-c", "cat > " + path]
  }

  /** Create an exec of `CatCommand(path)` with stdin attached, attach
      to it and stream the contents in; the exec's ID once all three
      succeeded. */
  function FeedRun(script: nat -> Answer, n: nat, target: string, path: string, contents: string): Run<Result<string>>
  {
    var create, attach, feed := script(n), script(n + 1), script(n + 2);
    var exec := ExecCreate(target, CatCommand(path), true);
    if !create.ok then Run([exec], Err("failed to create exec: " + create.err))
    else if !attach.ok then Run([exec, ExecAttach(create.id)], Err("failed to attach to exec: " + attach.err))
    else if !feed.ok then
      Run([exec, ExecAttach(create.id), Feed(create.id, contents)], Err("failed to write content to container: " + feed.err))
    else Run([exec, ExecAttach(create.id), Feed(create.id, contents)], Ok(create.id))
  }

  method StreamIn(w: World, target: string, path: string, contents: string) returns (r: Result<string>)
    requires w.Valid()
    modifies w
    ensures w.Valid()
    ensures w.log == old(w.log) + FeedRun(w.script, |old(w.log)|, target, path, contents).calls
    ensures r == FeedRun(w.script, |old(w.log)|, target, path, contents).value
  {
    var exec := w.Call(ExecCreate(target, CatCommand(path), true));
    if !exec.ok {
      return Err("failed to create exec: " + exec.err);
    }
    var attach := w.Call(ExecAttach(exec.id));
    if !attach.ok {
      return Err("failed to attach to exec: " + attach.err);
    }
    var feed := w.Call(Feed(exec.id, contents));
    if !feed.ok {
      return Err("failed to write content to container: " + feed.err);
    }
    return Ok(exec.id);
  }

  /** `writeFileToContainer`: stream the contents in, close the exec's
      stdin, then poll the exec until it stops; the write succeeds when
      it exits with code 0. */
  ghost function StreamRun(script: nat -> Answer, n: nat, target: string, path: string, contents: string): Run<Status>
    requires Fair(script)
  {
    var fed := FeedRun(script, n, target, path, contents);
    match fed.value
    case Err(e) => Run(fed.calls, Failure(e))
    case Ok(id) =>
      var poll := PollRun(script, n + 4, id);
      Run(fed.calls + [CloseStdin(id)] + poll.calls, poll.value)
  }

  lemma StreamSplit(script: nat -> Answer, n: nat, m: nat, target: string, path: string, contents: string, id: string)
    requires Fair(script)
    requires FeedRun(script, n, target, path, contents).value == Ok(id) && m == n + 4
    ensures StreamRun(script, n, target, path, contents)
         == Run(FeedRun(script, n, target, path, contents).calls + [CloseStdin(id)] + PollRun(script, m, id).calls,
                PollRun(script, m, id).value)
  {
  }

  method WriteFileToContainer(w: World, target: string, path: string, contents: string) returns (st: Status)
    requires w.Valid()
    modifies w
    ensures w.Valid()
    ensures w.log == old(w.log) + StreamRun(w.script, |old(w.log)|, target, path, contents).calls
    ensures st == StreamRun(w.script, |old(w.log)|, target, path, contents).value
  {
    var fed := StreamIn(w, target, path, contents);
    if fed.Err? {
      return Failure(fed.msg);
    }
    var _ := w.Call(CloseStdin(fed.value));
    ghost var mid := w.log;
    ghost var fedCalls := FeedRun(w.script, |old(w.log)|, target, path, contents).calls;
    StreamSplit(w.script, |old(w.log)|, |mid|, target, path, contents, fed.value);
    st := Poll(w, fed.value);
    Assoc(old(w.log), fedCalls + [CloseStdin(fed.value)], PollRun(w.script, |mid|, fed.value).calls);
  }

  /** The directory written into: `/app` by default, `UnderApp` of a
      given one. */
  function WriteDir(given: Option<string>): string
  {
    match given
    case Some(d) => Destinations.UnderApp(d)
    case None => Destinations.AppDir
  }

  /** The reply once the directory step and the write have run. */
  function WriteReply(made: Status, written: Status, target: string, path: string): Reply
  {
    match made
    case Failure(e) => Text("Error creating directory: " + e, false)
    case Success =>
      match written
      case Failure(e) => Text("Error writing file: " + e, false)
      case Success => Text("Successfully wrote file " + path + " to container " + target, false)
  }

  /** Ensure the directory, then write `Join(dir, name)`; the write runs
      only when the directory step succeeded. */
  ghost function PlaceRun(script: nat -> Answer, n: nat, target: string, dir: string, name: string, contents: string): Run<Reply>
    requires Fair(script)
  {
    var path := Paths.Join(dir, name);
    var made := EnsureDirRun(script, n, target, dir);
    if made.value.Failure? then Run(made.calls, WriteReply(made.value, Success, target, path))
    else
      var written := StreamRun(script, n + 2, target, path, contents);
      Run(made.calls + written.calls, WriteReply(Success, written.value, target, path))
  }

  lemma PlaceSplit(script: nat -> Answer, n: nat, m: nat, target: string, dir: string, name: string, contents: string)
    requires Fair(script)
    requires EnsureDirRun(script, n, target, dir).value == Success && m == n + 2
    ensures PlaceRun(script, n, target, dir, name, contents)
         == Run(EnsureDirRun(script, n, target, dir).calls + StreamRun(script, m, target, Paths.Join(dir, name), contents).calls,
                WriteReply(Success, StreamRun(script, m, target, Paths.Join(dir, name), contents).value, target, Paths.Join(dir, name)))
  {
  }

  method Place(w: World, target: string, dir: string, name: string, contents: string) returns (reply: Reply)
    requires w.Valid()
    modifies w
    ensures w.Valid()
    ensures w.log == old(w.log) + PlaceRun(w.script, |old(w.log)|, target, dir, name, contents).calls
    ensures reply == PlaceRun(w.script, |old(w.log)|, target, dir, name, contents).value
  {
    var path := Paths.Join(dir, name);
    var made := EnsureDirectoryExists(w, target, dir);
    if made.Failure? {
      return WriteReply(made, Success, target, path);
    }
    ghost var mid := w.log;
    PlaceSplit(w.script, |old(w.log)|, |mid|, target, dir, name, contents);
    var written := WriteFileToContainer(w, target, path, contents);
    Assoc(old(w.log), EnsureDirRun(w.script, |old(w.log)|, target, dir).calls,
          StreamRun(w.script, |mid|, target, path, contents).calls);
    reply := WriteReply(made, written, target, path);
  }

  /** `WriteFile`: `container_id` and `file_name` must be non-empty
      strings; `file_contents` must be a string, possibly empty. */
  ghost function WriteFileRun(script: nat -> Answer, n: nat, args: Args): Run<Reply>
    requires Fair(script)
  {
    match NonEmptyStr(args, "container_id")
    case None => Run([], Text("container_id is required", false))
    case Some(target) =>
      match NonEmptyStr(args, "file_name")
      case None => Run([], Text("file_name is required", false))
      case Some(name) =>
        match GetStr(args, "file_contents")
        case None => Run([], Text("file_contents is required", false))
        case Some(contents) => PlaceRun(script, n, target, WriteDir(NonEmptyStr(args, "dest_dir")), name, contents)
  }

  method WriteFileTool(w: World, args: Args) returns (reply: Reply)
    requires w.Valid()
    modifies w
    ensures w.Valid()
    ensures w.log == old(w.log) + WriteFileRun(w.script, |old(w.log)|, args).calls
    ensures reply == WriteFileRun(w.script, |old(w.log)|, args).value
  {
    var target := NonEmptyStr(args, "container_id");
    if target.None? {
      return Text("container_id is required", false);
    }
    var name := NonEmptyStr(args, "file_name");
    if name.None? {
      return Text("file_name is required", false);
    }
    var contents := GetStr(args, "file_contents");
    if contents.None? {
      return Text("file_contents is required", false);
    }
    reply := Place(w, target.value, WriteDir(NonEmptyStr(args, "dest_dir")), name.value, contents.value);
  }

  /** The file written is always at a clean absolute path; by default it
      is under `/app`, and a given absolute directory is used unchanged. */
  lemma TargetPath(given: Option<string>, name: string)
    ensures Paths.IsAbs(Paths.Join(WriteDir(given), name))
    ensures Paths.Clean(Paths.Join(WriteDir(given), name)) == Paths.Join(WriteDir(given), name)
    ensures given.None? ==> Paths.Join(WriteDir(given), name) == Paths.Join("/app", name)
    ensures given.Some? && Paths.IsAbs(given.value) ==> WriteDir(given) == given.value
  {
    if given.Some? {
      Destinations.UnderAppAbsolute(given.value);
    }
    Paths.JoinAbs(WriteDir(given), name);
  }

  /** The path is not quoted: the shell line splits it at white space, so
      only its first word receives the output of `cat`. */
  lemma UnquotedPath(path: string)
    ensures Strs.Fields(CatCommand(path)[2]) == ["cat", ">"] + Strs.Fields(path)
  {
    Strs.FieldsAppend("cat >", path);
    assert "cat >" + " " + path == CatCommand(path)[2];
    CatRedirect();
  }

  lemma CatRedirect()
    ensures Strs.Fields("cat >") == ["cat", ">"]
  {
    assert Strs.NoSpace("cat") && Strs.NoSpace(">");
    Strs.FieldsJoin(["cat", ">"]);
    assert Strs.Join(["cat", ">"], " ") == "cat >";
  }

  /** The contents are streamed before stdin is closed, and only then is
      the exec inspected, until it stops; the write succeeds exactly when
      it got that far and the last inspection reports exit code 0. */
  lemma WriteSucceedsIff(script: nat -> Answer, n: nat, target: string, path: string, contents: string)
    requires Fair(script)
    ensures var r := StreamRun(script, n, target, path, contents);
      var last := script(n + |r.calls| - 1);
      && r.calls[0] == ExecCreate(target, CatCommand(path), true)
      && (r.value == Success <==>
            && script(n).ok && script(n + 1).ok && script(n + 2).ok
            && last.ok && !last.running && last.exitCode == 0)
  {
    var fed := FeedRun(script, n, target, path, contents);
    var r := StreamRun(script, n, target, path, contents);
    if fed.value.Ok? {
      var id := fed.value.value;
      var poll := PollRun(script, n + 4, id);
      StreamSplit(script, n, n + 4, target, path, contents, id);
      PollSucceedsIff(script, n + 4, id);
      assert |r.calls| == 4 + |poll.calls|;
      assert r.value == poll.value;
    } else {
      assert r.value.Failure?;
    }
  }

  /** Once streamed, stdin is closed and the exec is inspected, and
      nothing else is done. */
  lemma StreamThenPoll(script: nat -> Answer, n: nat, target: string, path: string, contents: string)
    requires Fair(script)
    requires script(n).ok && script(n + 1).ok && script(n + 2).ok
    ensures var r := StreamRun(script, n, target, path, contents);
      var id := script(n).id;
      && r.calls[..4] == [ExecCreate(target, CatCommand(path), true), ExecAttach(id), Feed(id, contents), CloseStdin(id)]
      && |r.calls| > 4
      && (forall k :: 4 <= k < |r.calls| ==> r.calls[k] == ExecInspect(id))
  {
    var id := script(n).id;
    var fed := FeedRun(script, n, target, path, contents);
    StreamSplit(script, n, n + 4, target, path, contents, id);
    var poll := PollRun(script, n + 4, id);
    PollSucceedsIff(script, n + 4, id);
    Halves(fed.calls + [CloseStdin(id)], poll.calls);
  }

  /** A failed directory step stops everything after it. */
  lemma DirectoryFirst(script: nat -> Answer, n: nat, target: string, dir: string, name: string, contents: string)
    requires Fair(script)
    ensures var r := PlaceRun(script, n, target, dir, name, contents);
      var made := EnsureDirRun(script, n, target, dir);
      && r.calls[0] == ExecCreate(target, ["mkdir", "-p", dir], false)
      && (made.value.Failure? ==> r.calls == made.calls && r.value == Text("Error creating directory: " + made.value.err, false))
  {
  }

  /** Empty contents are accepted; only a missing or non-string
      `file_contents` is refused, and then nothing is done. */
  lemma EmptyContentsAccepted(script: nat -> Answer, n: nat, args: Args)
    requires Fair(script)
    requires NonEmptyStr(args, "container_id").Some? && NonEmptyStr(args, "file_name").Some?
    ensures GetStr(args, "file_contents").None? <==> WriteFileRun(script, n, args).calls == []
    ensures GetStr(args, "file_contents").None? ==> WriteFileRun(script, n, args).value.text == "file_contents is required"
  {
  }
}
