/** The `copy_file` tool (`tools/copy-file.go`): copy one host file into
    a container as a one-entry tar archive unpacked in the destination's
    directory. */
module CopyFile {
  import opened Wrappers
  import Strs
  import Paths
  import Destinations
  import opened Engine
  import opened Mcp

  /** `createDirectoryInContainer`: create and start a `mkdir -p` exec.
      The exec is only started, never waited for. */
  function MakeDirRun(script: nat -> Answer, n: nat, target: string, dir: string): Run<Status>
  {
    var create := ExecCreate(target, ["mkdir", "-p", dir], false);
    if !script(n).ok then Run([create], Failure("failed to create exec: " + script(n).err))
    else
      var start := ExecStart(script(n).id);
      if !script(n + 1).ok then Run([create, start], Failure("failed to start exec: " + script(n + 1).err))
      else Run([create, start], Success)
  }

  method CreateDirectoryInContainer(w: World, target: string, dir: string) returns (st: Status)
    requires w.Valid()
    modifies w
    ensures w.Valid()
    ensures w.log == old(w.log) + MakeDirRun(w.script, |old(w.log)|, target, dir).calls
    ensures st == MakeDirRun(w.script, |old(w.log)|, target, dir).value
  {
    var exec := w.Call(ExecCreate(target, ["mkdir", "-p", dir], false));
    if !exec.ok {
      return Failure("failed to create exec: " + exec.err);
    }
    var start := w.Call(ExecStart(exec.id));
    if !start.ok {
      return Failure("failed to start exec: " + start.err);
    }
    return Success;
  }

  /** The single archive entry: named after the destination's last
      element, with the source's mode and size and the bytes read. */
  function FileEntry(dest: string, info: Answer, data: seq<byte>): Entry
  {
    Entry(Paths.Base(dest), Regular, info.mode, info.size, "", Some(data))
  }

  /** What the tar writer makes of the header and the bytes copied in:
      it refuses more bytes than the header's size, and on closing
      reports the bytes still missing. */
  function TarWrite(dest: string, info: Answer, data: seq<byte>): Result<Entry>
  {
    if |data| > info.size then Err("failed to write file content to tar: archive/tar: write too long")
    else if |data| < info.size then
      Err("failed to close tar writer: archive/tar: missed writing " + Strs.IntToString(info.size - |data|) + " bytes")
    else Ok(FileEntry(dest, info, data))
  }

  /** The archive of `copyFileToContainer`: open and stat the source,
      then write the header and the bytes. */
  function ArchiveRun(script: nat -> Answer, n: nat, src: string, dest: string): Run<Result<Entry>>
  {
    var open, info, read := script(n), script(n + 1), script(n + 2);
    if !open.ok then Run([Open(src)], Err("failed to open source file: " + open.err))
    else if !info.ok then Run([Open(src), Stat(src)], Err("failed to stat source file: " + info.err))
    else if !read.ok then Run([Open(src), Stat(src), ReadAll(src)], Err("failed to write file content to tar: " + read.err))
    else Run([Open(src), Stat(src), ReadAll(src)], TarWrite(dest, info, read.data))
  }

  method Archive(w: World, src: string, dest: string) returns (r: Result<Entry>)
    requires w.Valid()
    modifies w
    ensures w.Valid()
    ensures w.log == old(w.log) + ArchiveRun(w.script, |old(w.log)|, src, dest).calls
    ensures r == ArchiveRun(w.script, |old(w.log)|, src, dest).value
  {
    var open := w.Call(Open(src));
    if !open.ok {
      return Err("failed to open source file: " + open.err);
    }
    var info := w.Call(Stat(src));
    if !info.ok {
      return Err("failed to stat source file: " + info.err);
    }
    var read := w.Call(ReadAll(src));
    if !read.ok {
      return Err("failed to write file content to tar: " + read.err);
    }
    r := TarWrite(dest, info, read.data);
  }

  /** `copyFileToContainer`: the archive, then the copy into the
      destination's directory. */
  function UploadRun(script: nat -> Answer, n: nat, target: string, src: string, dest: string): Run<Status>
  {
    var archive := ArchiveRun(script, n, src, dest);
    match archive.value
    case Err(e) => Run(archive.calls, Failure(e))
    case Ok(entry) =>
      var copy := script(n + |archive.calls|);
      Run(archive.calls + [CopyTo(target, Paths.Dir(dest), [entry])],
          if copy.ok then Success else Failure("failed to copy to container: " + copy.err))
  }

  method CopyFileToContainer(w: World, target: string, src: string, dest: string) returns (st: Status)
    requires w.Valid()
    modifies w
    ensures w.Valid()
    ensures w.log == old(w.log) + UploadRun(w.script, |old(w.log)|, target, src, dest).calls
    ensures st == UploadRun(w.script, |old(w.log)|, target, src, dest).value
  {
    var archive := Archive(w, src, dest);
    if archive.Err? {
      return Failure(archive.msg);
    }
    var copy := w.Call(CopyTo(target, Paths.Dir(dest), [archive.value]));
    if !copy.ok {
      return Failure("failed to copy to container: " + copy.err);
    }
    return Success;
  }

  /** The reply once the directory step and the copy have run. */
  function PlaceReply(made: Status, copied: Status, target: string, src: string, dest: string): Reply
  {
    match made
    case Failure(e) => Text("Error creating destination directory: " + e, false)
    case Success =>
      match copied
      case Failure(e) => Text("Error copying file to container: " + e, false)
      case Success => Text("Successfully copied " + src + " to " + dest + " in container " + target, false)
  }

  /** The destination's directory, then the copy, which runs only when
      the directory step succeeded. */
  function PlaceRun(script: nat -> Answer, n: nat, target: string, src: string, dest: string): Run<Reply>
  {
    var made := MakeDirRun(script, n, target, Paths.Dir(dest));
    if made.value.Failure? then Run(made.calls, PlaceReply(made.value, Success, target, src, dest))
    else
      var copied := UploadRun(script, n + 2, target, src, dest);
      Run(made.calls + copied.calls, PlaceReply(made.value, copied.value, target, src, dest))
  }

  lemma PlaceSplit(script: nat -> Answer, n: nat, m: nat, target: string, src: string, dest: string)
    requires MakeDirRun(script, n, target, Paths.Dir(dest)).value == Success
    requires m == n + 2
    ensures PlaceRun(script, n, target, src, dest)
         == Run(MakeDirRun(script, n, target, Paths.Dir(dest)).calls + UploadRun(script, m, target, src, dest).calls,
                PlaceReply(Success, UploadRun(script, m, target, src, dest).value, target, src, dest))
  {
  }

  method Place(w: World, target: string, src: string, dest: string) returns (reply: Reply)
    requires w.Valid()
    modifies w
    ensures w.Valid()
    ensures w.log == old(w.log) + PlaceRun(w.script, |old(w.log)|, target, src, dest).calls
    ensures reply == PlaceRun(w.script, |old(w.log)|, target, src, dest).value
  {
    var made := CreateDirectoryInContainer(w, target, Paths.Dir(dest));
    if made.Failure? {
      return PlaceReply(made, Success, target, src, dest);
    }
    ghost var mid := w.log;
    PlaceSplit(w.script, |old(w.log)|, |mid|, target, src, dest);
    var copied := CopyFileToContainer(w, target, src, dest);
    Assoc(old(w.log), MakeDirRun(w.script, |old(w.log)|, target, Paths.Dir(dest)).calls,
          UploadRun(w.script, |mid|, target, src, dest).calls);
    reply := PlaceReply(made, copied, target, src, dest);
  }

  /** The source is checked on the host before anything reaches the
      engine: it must exist and must not be a directory. */
  function CheckedRun(script: nat -> Answer, n: nat, target: string, src: string, given: Option<string>): Run<Reply>
  {
    var info := script(n);
    if !info.ok then Run([Stat(src)], Text("Error accessing source file: " + info.err, false))
    else if info.isDir then Run([Stat(src)], Text("local_src_file must be a file, not a directory", false))
    else
      var placed := PlaceRun(script, n + 1, target, src, Destinations.Destination(given, src));
      Run([Stat(src)] + placed.calls, placed.value)
  }

  lemma CheckedSplit(script: nat -> Answer, n: nat, m: nat, target: string, src: string, given: Option<string>)
    requires script(n).ok && !script(n).isDir && m == n + 1
    ensures CheckedRun(script, n, target, src, given)
         == Run([Stat(src)] + PlaceRun(script, m, target, src, Destinations.Destination(given, src)).calls,
                PlaceRun(script, m, target, src, Destinations.Destination(given, src)).value)
  {
  }

  method Checked(w: World, target: string, src: string, given: Option<string>) returns (reply: Reply)
    requires w.Valid()
    modifies w
    ensures w.Valid()
    ensures w.log == old(w.log) + CheckedRun(w.script, |old(w.log)|, target, src, given).calls
    ensures reply == CheckedRun(w.script, |old(w.log)|, target, src, given).value
  {
    var info := w.Call(Stat(src));
    if !info.ok {
      return Text("Error accessing source file: " + info.err, false);
    }
    if info.isDir {
      return Text("local_src_file must be a file, not a directory", false);
    }
    var dest := Destinations.Destination(given, src);
    ghost var mid := w.log;
    CheckedSplit(w.script, |old(w.log)|, |mid|, target, src, given);
    reply := Place(w, target, src, dest);
    Assoc(old(w.log), [Stat(src)], PlaceRun(w.script, |mid|, target, src, dest).calls);
  }

  /** `CopyFile`: both arguments must be non-empty strings; the source
      path is cleaned; every outcome is a plain text reply. */
  function CopyFileRun(script: nat -> Answer, n: nat, args: Args): Run<Reply>
  {
    match NonEmptyStr(args, "container_id")
    case None => Run([], Text("container_id is required", false))
    case Some(target) =>
      match NonEmptyStr(args, "local_src_file")
      case None => Run([], Text("local_src_file is required", false))
      case Some(local) => CheckedRun(script, n, target, Paths.Clean(local), NonEmptyStr(args, "dest_path"))
  }

  method CopyFileTool(w: World, args: Args) returns (reply: Reply)
    requires w.Valid()
    modifies w
    ensures w.Valid()
    ensures w.log == old(w.log) + CopyFileRun(w.script, |old(w.log)|, args).calls
    ensures reply == CopyFileRun(w.script, |old(w.log)|, args).value
  {
    var target := NonEmptyStr(args, "container_id");
    if target.None? {
      return Text("container_id is required", false);
    }
    var local := NonEmptyStr(args, "local_src_file");
    if local.None? {
      return Text("local_src_file is required", false);
    }
    reply := Checked(w, target.value, Paths.Clean(local.value), NonEmptyStr(args, "dest_path"));
  }

  /** The directory exec is created and started but never inspected: it
      succeeds exactly when both calls did. */
  lemma DirectoryNotAwaited(script: nat -> Answer, n: nat, target: string, dir: string)
    ensures var r := MakeDirRun(script, n, target, dir);
      && r.calls[0] == ExecCreate(target, ["mkdir", "-p", dir], false)
      && (r.value == Success <==> script(n).ok && script(n + 1).ok)
      && (forall k :: 0 <= k < |r.calls| ==> !r.calls[k].ExecInspect?)
  {
  }

  /** A successful upload sends one regular-file entry named after the
      destination's last element, with the size and mode the source's
      stat reported and exactly that many bytes, into the destination's
      directory. */
  lemma UploadedEntry(script: nat -> Answer, n: nat, target: string, src: string, dest: string)
    requires UploadRun(script, n, target, src, dest).value == Success
    ensures var r := UploadRun(script, n, target, src, dest);
      var info, data := script(n + 1), script(n + 2).data;
      && r.calls[..3] == [Open(src), Stat(src), ReadAll(src)]
      && |r.calls| == 4
      && r.calls[3] == CopyTo(target, Paths.Dir(dest), [Entry(Paths.Base(dest), Regular, info.mode, info.size, "", Some(data))])
      && |data| == info.size
  {
  }

  /** The archive holds an entry exactly when the bytes read match the
      size the header promised; the entry then carries those bytes. */
  lemma TarWriteSized(dest: string, info: Answer, data: seq<byte>)
    ensures TarWrite(dest, info, data).Ok? <==> |data| == info.size
    ensures TarWrite(dest, info, data).Ok? ==>
      var e := TarWrite(dest, info, data).value;
      e.payload == Some(data) && e.size == |data| && e.kind == Regular && e.name == Paths.Base(dest)
  {
  }

  /** For a destination without a trailing slash, the entry unpacked in
      the destination's directory lands exactly at the cleaned
      destination. */
  lemma LandsAtDestination(dest: string, info: Answer, data: seq<byte>)
    requires Paths.IsAbs(dest) && dest[|dest| - 1] != '/'
    ensures Paths.Join(Paths.Dir(dest), FileEntry(dest, info, data).name) == Paths.Clean(dest)
  {
    Paths.JoinDirBase(dest);
  }

  /** A directory step that fails stops everything after it. */
  lemma DirectoryFirst(script: nat -> Answer, n: nat, target: string, src: string, dest: string)
    ensures var r := PlaceRun(script, n, target, src, dest);
      var made := MakeDirRun(script, n, target, Paths.Dir(dest));
      && r.calls[..|made.calls|] == made.calls
      && (made.value.Failure? <==> r.calls == made.calls)
      && (made.value.Failure? ==> r.value == Text("Error creating destination directory: " + made.value.err, false))
  {
    var made := MakeDirRun(script, n, target, Paths.Dir(dest));
    if made.value == Success {
      var up := UploadRun(script, n + 2, target, src, dest);
      PlaceSplit(script, n, n + 2, target, src, dest);
      Halves(made.calls, up.calls);
      assert |up.calls| > 0;
    }
  }

  /** A missing source or a directory source is reported after the one
      host stat, with no engine call. */
  lemma SourceChecked(script: nat -> Answer, n: nat, target: string, src: string, given: Option<string>)
    requires !script(n).ok || script(n).isDir
    ensures CheckedRun(script, n, target, src, given).calls == [Stat(src)]
    ensures CheckedRun(script, n, target, src, given).value.text
         == if !script(n).ok then "Error accessing source file: " + script(n).err
            else "local_src_file must be a file, not a directory"
  {
  }

  /** Without both arguments nothing is done at all. */
  lemma ArgumentsRequired(script: nat -> Answer, n: nat, args: Args)
    requires NonEmptyStr(args, "container_id").None? || NonEmptyStr(args, "local_src_file").None?
    ensures CopyFileRun(script, n, args).calls == []
    ensures CopyFileRun(script, n, args).value.text
      == if NonEmptyStr(args, "container_id").None? then "container_id is required" else "local_src_file is required"
  {
  }
}
