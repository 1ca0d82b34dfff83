/** The `copy_file_from_container` tool (`tools/copy-file-from-container.go`):
    read one file out of a container as a tar stream and write it on the
    host, with the permission bits its tar header records. */
module CopyFrom {
  import opened Wrappers
  import Paths
  import Destinations
  import opened Engine
  import opened Mcp

  /** The mode the host's parent directories are created with (0755). */
  const DirMode: int := 0x1ED

  /** The host path written: the `local_dest_path` argument, or else the
      last element of the container path, cleaned. */
  function LocalPath(dest: Option<string>, src: string): string
  {
    Paths.Clean(match dest case Some(d) => d case None => Paths.Base(src))
  }

  /** The bytes a tar entry carries; a header-only entry carries none. */
  function Payload(e: Entry): seq<byte>
  {
    match e.payload case Some(data) => data case None => []
  }

  /** `copyFileFromContainer`: fetch the archive of `src`; refuse a
      directory, an empty archive and a first entry that is not a regular
      file; then create the host file, copy that entry's bytes into it and
      give it the entry's mode, each step only after the previous one
      succeeded. */
  function FetchRun(script: nat -> Answer, n: nat, target: string, src: string, dest: string): Run<Status>
  {
    var copy := script(n);
    var fetch := [CopyFrom(target, src)];
    if !copy.ok then Run(fetch, Failure("failed to copy from container: " + copy.err))
    else if copy.isDir then Run(fetch, Failure("source path is a directory, only files are supported"))
    else if |copy.entries| == 0 then Run(fetch, Failure("failed to read tar header: EOF"))
    else if copy.entries[0].kind != Regular then Run(fetch, Failure("source is not a regular file"))
    else
      var e := copy.entries[0];
      var create, write, chmod := script(n + 1), script(n + 2), script(n + 3);
      if !create.ok then Run(fetch + [CreateFile(dest)], Failure("failed to create destination file: " + create.err))
      else if !write.ok then
        Run(fetch + [CreateFile(dest), WriteInto(dest, Payload(e))], Failure("failed to write file content: " + write.err))
      else if !chmod.ok then
        Run(fetch + [CreateFile(dest), WriteInto(dest, Payload(e)), Chmod(dest, e.mode)],
            Failure("failed to set file permissions: " + chmod.err))
      else Run(fetch + [CreateFile(dest), WriteInto(dest, Payload(e)), Chmod(dest, e.mode)], Success)
  }

  method FetchFile(w: World, target: string, src: string, dest: string) returns (st: Status)
    requires w.Valid()
    modifies w
    ensures w.Valid()
    ensures w.log == old(w.log) + FetchRun(w.script, |old(w.log)|, target, src, dest).calls
    ensures st == FetchRun(w.script, |old(w.log)|, target, src, dest).value
  {
    var copy := w.Call(CopyFrom(target, src));
    if !copy.ok {
      return Failure("failed to copy from container: " + copy.err);
    }
    if copy.isDir {
      return Failure("source path is a directory, only files are supported");
    }
    if |copy.entries| == 0 {
      return Failure("failed to read tar header: EOF");
    }
    var header := copy.entries[0];
    if header.kind != Regular {
      return Failure("source is not a regular file");
    }
    var create := w.Call(CreateFile(dest));
    if !create.ok {
      return Failure("failed to create destination file: " + create.err);
    }
    var write := w.Call(WriteInto(dest, Payload(header)));
    if !write.ok {
      return Failure("failed to write file content: " + write.err);
    }
    var chmod := w.Call(Chmod(dest, header.mode));
    if !chmod.ok {
      return Failure("failed to set file permissions: " + chmod.err);
    }
    return Success;
  }

  /** The reply once both paths are known: success names the container
      path, the container and the host path; a copy error is wrapped. */
  function FetchReply(st: Status, target: string, src: string, dest: string): Reply
  {
    match st
    case Success => Text("Successfully copied " + src + " from container " + target + " to " + dest, false)
    case Failure(e) => Text("Error copying file from container: " + e, false)
  }

  /** The part of `CopyFileFromContainer` after the arguments: create the
      host file's parent directories, then copy. */
  function TransferRun(script: nat -> Answer, n: nat, target: string, src: string, dest: string): Run<Reply>
  {
    var mkdir := [MkdirAll(Paths.Dir(dest), DirMode)];
    if !script(n).ok then Run(mkdir, Text("Error creating destination directory: " + script(n).err, false))
    else
      var f := FetchRun(script, n + 1, target, src, dest);
      Run(mkdir + f.calls, FetchReply(f.value, target, src, dest))
  }

  method Transfer(w: World, target: string, src: string, dest: string) returns (reply: Reply)
    requires w.Valid()
    modifies w
    ensures w.Valid()
    ensures w.log == old(w.log) + TransferRun(w.script, |old(w.log)|, target, src, dest).calls
    ensures reply == TransferRun(w.script, |old(w.log)|, target, src, dest).value
  {
    var mkdir := w.Call(MkdirAll(Paths.Dir(dest), DirMode));
    if !mkdir.ok {
      return Text("Error creating destination directory: " + mkdir.err, false);
    }
    ghost var mid := w.log;
    var st := FetchFile(w, target, src, dest);
    Assoc(old(w.log), [MkdirAll(Paths.Dir(dest), DirMode)], FetchRun(w.script, |mid|, target, src, dest).calls);
    reply := FetchReply(st, target, src, dest);
  }

  /** `CopyFileFromContainer`: both arguments must be non-empty strings;
      a relative container path is taken under `/app`; every outcome is a
      plain text reply. */
  function CopyFileFromContainerRun(script: nat -> Answer, n: nat, args: Args): Run<Reply>
  {
    match NonEmptyStr(args, "container_id")
    case None => Run([], Text("container_id is required", false))
    case Some(target) =>
      match NonEmptyStr(args, "container_src_path")
      case None => Run([], Text("container_src_path is required", false))
      case Some(p) =>
        var src := Destinations.UnderApp(p);
        TransferRun(script, n, target, src, LocalPath(NonEmptyStr(args, "local_dest_path"), src))
  }

  method CopyFileFromContainer(w: World, args: Args) returns (reply: Reply)
    requires w.Valid()
    modifies w
    ensures w.Valid()
    ensures w.log == old(w.log) + CopyFileFromContainerRun(w.script, |old(w.log)|, args).calls
    ensures reply == CopyFileFromContainerRun(w.script, |old(w.log)|, args).value
  {
    var target := NonEmptyStr(args, "container_id");
    if target.None? {
      return Text("container_id is required", false);
    }
    var srcArg := NonEmptyStr(args, "container_src_path");
    if srcArg.None? {
      return Text("container_src_path is required", false);
    }
    var src := Destinations.UnderApp(srcArg.value);
    var dest := LocalPath(NonEmptyStr(args, "local_dest_path"), src);
    reply := Transfer(w, target.value, src, dest);
  }

  /** The container path looked up is absolute (a relative one is taken
      under `/app`, an absolute one kept) and the host path written is
      clean. */
  lemma PathsResolved(p: string, dest: Option<string>)
    ensures Paths.IsAbs(Destinations.UnderApp(p))
    ensures Paths.IsAbs(p) ==> Destinations.UnderApp(p) == p
    ensures Paths.Clean(LocalPath(dest, Destinations.UnderApp(p))) == LocalPath(dest, Destinations.UnderApp(p))
  {
    Destinations.UnderAppAbsolute(p);
    Paths.CleanIdempotent(if dest.Some? then dest.value else Paths.Base(Destinations.UnderApp(p)));
  }

  /** The host directory comes first, and the archive is fetched only
      once it exists. */
  lemma DirectoryFirst(script: nat -> Answer, n: nat, target: string, src: string, dest: string)
    ensures var r := TransferRun(script, n, target, src, dest);
      && r.calls[0] == MkdirAll(Paths.Dir(dest), DirMode)
      && (|r.calls| > 1 <==> script(n).ok)
      && (script(n).ok ==> r.calls[1] == CopyFrom(target, src))
  {
  }

  /** No host file is created unless the archive is a file whose first
      entry is a regular file. */
  lemma RefusedBeforeWriting(script: nat -> Answer, n: nat, target: string, src: string, dest: string)
    ensures var r := FetchRun(script, n, target, src, dest);
      var copy := script(n);
      && r.calls[0] == CopyFrom(target, src)
      && (|r.calls| > 1 <==> copy.ok && !copy.isDir && |copy.entries| > 0 && copy.entries[0].kind == Regular)
      && (|r.calls| == 1 ==> r.value.Failure?)
  {
  }

  /** A successful copy leaves the host file holding exactly the first
      entry's bytes, with the mode `os.Chmod` makes of that entry's header
      mode (its permission bits, for a mode as tar records it), whatever
      follows it in the archive; nothing else changes. */
  lemma FetchedFile(st: State, script: nat -> Answer, n: nat, target: string, src: string, dest: string)
    requires FetchRun(script, n, target, src, dest).value == Success
    ensures var e := script(n).entries[0];
      Replay(st, script, n, FetchRun(script, n, target, src, dest).calls)
        == st.(files := st.files[dest := File(Payload(e), ChmodBits(e.mode))])
    ensures var e := script(n).entries[0];
      0 <= e.mode < 0x10_0000 ==>
        Replay(st, script, n, FetchRun(script, n, target, src, dest).calls).files[dest].mode == e.mode % 0x200
  {
    var r := FetchRun(script, n, target, src, dest);
    var e := script(n).entries[0];
    if 0 <= e.mode < 0x10_0000 {
      ChmodTarMode(e.mode);
    }
    assert script(n + 1).ok;
    assert script(n + 2).ok && script(n + 3).ok;
    assert r.calls == [CopyFrom(target, src), CreateFile(dest), WriteInto(dest, Payload(e)), Chmod(dest, e.mode)];
    WrittenFile(st, script, n, target, src, dest, e);
  }

  lemma WrittenFile(st: State, script: nat -> Answer, n: nat, target: string, src: string, dest: string, e: Entry)
    requires script(n + 1).ok && script(n + 2).ok && script(n + 3).ok
    ensures Replay(st, script, n, [CopyFrom(target, src), CreateFile(dest), WriteInto(dest, Payload(e)), Chmod(dest, e.mode)])
         == st.(files := st.files[dest := File(Payload(e), ChmodBits(e.mode))])
  {
    var calls := [CopyFrom(target, src), CreateFile(dest), WriteInto(dest, Payload(e)), Chmod(dest, e.mode)];
    var s1 := Step(st, CopyFrom(target, src), script(n));
    var s2 := Step(s1, CreateFile(dest), script(n + 1));
    var s3 := Step(s2, WriteInto(dest, Payload(e)), script(n + 2));
    var s4 := Step(s3, Chmod(dest, e.mode), script(n + 3));
    assert s1 == st;
    HostWrite(st, script(n + 1), script(n + 2), script(n + 3), dest, Payload(e), e.mode);
    assert calls[1..][1..][1..][1..] == [];
    assert Replay(s4, script, n + 4, []) == s4;
    assert Replay(s3, script, n + 3, calls[3..]) == s4;
    assert Replay(s2, script, n + 2, calls[2..]) == s4;
    assert Replay(s1, script, n + 1, calls[1..]) == s4;
  }

  /** Create, write, chmod: the file holds the data, with the mode that
      `os.Chmod` makes of the one passed. */
  lemma HostWrite(st: State, create: Answer, write: Answer, chmod: Answer, dest: string, data: seq<byte>, mode: int)
    requires create.ok && write.ok && chmod.ok
    ensures Step(Step(Step(st, CreateFile(dest), create), WriteInto(dest, data), write), Chmod(dest, mode), chmod)
         == st.(files := st.files[dest := File(data, ChmodBits(mode))])
  {
    var s2 := Step(st, CreateFile(dest), create);
    var s3 := Step(s2, WriteInto(dest, data), write);
    var s4 := Step(s3, Chmod(dest, mode), chmod);
    assert s2.files == st.files[dest := File([], 0x1B6)];
    assert s2.containers == st.containers && s2.dirs == st.dirs;
    assert s3.files == st.files[dest := File(data, 0x1B6)];
    assert s3.containers == st.containers && s3.dirs == st.dirs;
    assert s4.files == st.files[dest := File(data, ChmodBits(mode))];
  }

  /** The reply is always plain text, never flagged as an error; it
      reports success exactly when the directory and every copy step
      succeeded. */
  lemma TransferReply(script: nat -> Answer, n: nat, target: string, src: string, dest: string)
    ensures var r := TransferRun(script, n, target, src, dest);
      && r.value.Text? && !r.value.isError
      && (r.value.text[0] == 'S' <==> script(n).ok && FetchRun(script, n + 1, target, src, dest).value == Success)
  {
  }

  /** Without both arguments nothing is done at all. */
  lemma ArgumentsRequired(script: nat -> Answer, n: nat, args: Args)
    requires NonEmptyStr(args, "container_id").None? || NonEmptyStr(args, "container_src_path").None?
    ensures CopyFileFromContainerRun(script, n, args).calls == []
    ensures CopyFileFromContainerRun(script, n, args).value.text
      == if NonEmptyStr(args, "container_id").None? then "container_id is required" else "container_src_path is required"
  {
  }
}
