/** The `copy_project` tool (`tools/copy-project.go`): archive a host
    directory, copy the archive into a container, unpack it under the
    destination and remove the temporary file, each step waiting for the
    container command it runs. */
module CopyProject {
  import opened Wrappers
  import Strs
  import Paths
  import Destinations
  import opened Engine
  import opened Mcp

  /** Which link target a symlink's header records: the item's own last
      element, as `FileInfoHeader(fi, fi.Name())` does, or the link's
      actual target. */
  datatype Linking = OwnName | Target

  function LinkName(it: WalkItem, linking: Linking): string
  {
    match linking
    case OwnName => Paths.Base(it.rel)
    case Target => it.target
  }

  /** The header (and payload) a walked item is archived with: named
      `Join(base, rel)`; a regular file carries its size and bytes, any
      other item is header-only with size 0. */
  function Header(base: string, it: WalkItem, linking: Linking): Entry
  {
    var name := Paths.Join(base, it.rel);
    if it.kind == Regular then
      Entry(name, Regular, it.mode, it.size, "", Some(match it.content case Ok(data) => data case Err(_) => []))
    else Entry(name, it.kind, it.mode, 0, if it.kind == Symlink then LinkName(it, linking) else "", None)
  }

  /** An item that makes the walk callback return an error. */
  predicate Fails(it: WalkItem)
  {
    || it.failure.Some?
    || it.kind == Socket
    || (it.rel != "." && it.kind == Regular && it.content.Err?)
  }

  /** The walk callback of `createTarArchive` on one item: the error the
      walk passed in, the header error for a socket, nothing for the root
      itself, the read error of a regular file, or the item's entry. */
  function ItemEntry(base: string, it: WalkItem, linking: Linking): (r: Result<Option<Entry>>)
    ensures r.Err? <==> Fails(it)
  {
    if it.failure.Some? then Err(it.failure.value)
    else if it.kind == Socket then Err("archive/tar: sockets not supported")
    else if it.rel == "." then Ok(None)
    else if it.kind == Regular && it.content.Err? then Err(it.content.msg)
    else Ok(Some(Header(base, it, linking)))
  }

  /** The archive of the walked items, in walk order: the first error
      aborts it. */
  function Collect(base: string, items: seq<WalkItem>, linking: Linking): Result<seq<Entry>>
    decreases |items|
  {
    if |items| == 0 then Ok([])
    else
      match Collect(base, items[..|items| - 1], linking)
      case Err(e) => Err(e)
      case Ok(es) =>
        match ItemEntry(base, items[|items| - 1], linking)
        case Err(e) => Err(e)
        case Ok(None) => Ok(es)
        case Ok(Some(e)) => Ok(es + [e])
  }

  /** The items that are not the root, in walk order. */
  function Kept(items: seq<WalkItem>): seq<WalkItem>
    decreases |items|
  {
    if |items| == 0 then []
    else Kept(items[..|items| - 1]) + (if items[|items| - 1].rel == "." then [] else [items[|items| - 1]])
  }

  /** An error among the first `i` items is the error of the whole walk. */
  lemma {:induction false} CollectStops(base: string, items: seq<WalkItem>, i: nat, linking: Linking)
    requires i <= |items| && Collect(base, items[..i], linking).Err?
    ensures Collect(base, items, linking) == Collect(base, items[..i], linking)
    decreases |items| - i
  {
    if i < |items| {
      var init := items[..|items| - 1];
      assert init[..i] == items[..i];
      CollectStops(base, init, i, linking);
    } else {
      assert items[..i] == items;
    }
  }

  /** One more item extends the archive by that item's entry, or ends it
      with that item's error. */
  lemma CollectNext(base: string, items: seq<WalkItem>, i: nat, linking: Linking, es: seq<Entry>)
    requires i < |items| && Collect(base, items[..i], linking) == Ok(es)
    ensures var item := ItemEntry(base, items[i], linking);
      Collect(base, items[..i + 1], linking)
        == if item.Err? then Err(item.msg) else if item.value.Some? then Ok(es + [item.value.value]) else Ok(es)
  {
    assert items[..i + 1][..i] == items[..i];
  }

  /** The walk callback applied to each item in turn, stopping at the
      first error. */
  method ArchiveItems(base: string, items: seq<WalkItem>, linking: Linking) returns (r: Result<seq<Entry>>)
    ensures r == Collect(base, items, linking)
  {
    var entries: seq<Entry> := [];
    var i := 0;
    while i < |items|
      invariant 0 <= i <= |items|
      invariant Collect(base, items[..i], linking) == Ok(entries)
    {
      CollectNext(base, items, i, linking, entries);
      var item := ItemEntry(base, items[i], linking);
      if item.Err? {
        CollectStops(base, items, i + 1, linking);
        return Err(item.msg);
      }
      if item.value.Some? {
        entries := entries + [item.value.value];
      }
      i := i + 1;
    }
    assert items[..i] == items;
    return Ok(entries);
  }

  /** `createTarArchive`: walk the source and archive what the walk
      visits, in order, under the source's last element. */
  method CreateTarArchive(w: World, src: string, linking: Linking) returns (r: Result<seq<Entry>>)
    requires w.Valid()
    modifies w
    ensures w.Valid()
    ensures w.log == old(w.log) + [Walk(src)]
    ensures r == Collect(Paths.Base(src), w.script(|old(w.log)|).walk, linking)
  {
    var walk := w.Call(Walk(src));
    r := ArchiveItems(Paths.Base(src), walk.walk, linking);
  }

  /** The archive fails exactly when some walked item fails: there is no
      partial archive. */
  lemma {:induction false} ArchiveFailsIff(base: string, items: seq<WalkItem>, linking: Linking)
    ensures Collect(base, items, linking).Err? <==> exists k :: 0 <= k < |items| && Fails(items[k])
    decreases |items|
  {
    if |items| > 0 {
      var init, last := items[..|items| - 1], items[|items| - 1];
      ArchiveFailsIff(base, init, linking);
      if exists k :: 0 <= k < |init| && Fails(init[k]) {
        var k :| 0 <= k < |init| && Fails(init[k]);
        assert Fails(items[k]);
      } else if Fails(last) {
        assert Fails(items[|items| - 1]);
      } else {
        assert Collect(base, items, linking).Ok?;
        forall k | 0 <= k < |items|
          ensures !Fails(items[k])
        {
          if k < |init| {
            assert items[k] == init[k];
          }
        }
      }
    }
  }

  /** A successful archive holds one entry per walked item other than
      the root, in walk order, each with that item's header. */
  lemma {:induction false} ArchiveEntries(base: string, items: seq<WalkItem>, linking: Linking)
    requires Collect(base, items, linking).Ok?
    ensures var es, ks := Collect(base, items, linking).value, Kept(items);
      && |es| == |ks|
      && forall k :: 0 <= k < |es| ==> es[k] == Header(base, ks[k], linking) && ks[k].rel != "." && !Fails(ks[k])
    decreases |items|
  {
    if |items| > 0 {
      var init := items[..|items| - 1];
      ArchiveEntries(base, init, linking);
    }
  }

  /** Entries are named `Join(base, rel)`; only regular files carry
      bytes, and those are exactly the bytes read. */
  lemma ArchiveContents(base: string, items: seq<WalkItem>, linking: Linking)
    requires Collect(base, items, linking).Ok?
    ensures var es, ks := Collect(base, items, linking).value, Kept(items);
      && |es| == |ks|
      && forall k :: 0 <= k < |es| ==>
        && es[k].name == Paths.Join(base, ks[k].rel)
        && (es[k].payload.Some? <==> ks[k].kind == Regular)
        && (ks[k].kind == Regular ==> ks[k].content == Ok(es[k].payload.value))
  {
    ArchiveEntries(base, items, linking);
  }

  /** As written, a symlink's header records the link's own name as its
      target: `current -> v2` is archived as `current -> current`. */
  lemma SymlinkPointsAtItself()
    ensures var it := WalkItem("current", None, Symlink, 0x1FF, 0, "v2", Ok([]));
      var r := ItemEntry("proj", it, OwnName);
      r.Ok? && r.value.Some? && r.value.value.linkname == "current" != it.target
  {
    Paths.BaseOfElement("current");
  }

  /** As written, every symlink in an archive the tool ships records its
      own name, not the walked link's target, as the link. */
  lemma SymlinksNameThemselves(base: string, items: seq<WalkItem>)
    requires Collect(base, items, OwnName).Ok?
    ensures var es, ks := Collect(base, items, OwnName).value, Kept(items);
      |es| == |ks| && forall k :: 0 <= k < |es| && es[k].kind == Symlink ==> es[k].linkname == Paths.Base(ks[k].rel)
  {
    ArchiveEntries(base, items, OwnName);
  }

  /** With the link's target recorded, every symlink in the archive
      points where the walked link does. */
  lemma SymlinksKeepTargets(base: string, items: seq<WalkItem>)
    requires Collect(base, items, Target).Ok?
    ensures var es, ks := Collect(base, items, Target).value, Kept(items);
      |es| == |ks| && forall k :: 0 <= k < |es| && es[k].kind == Symlink ==> es[k].linkname == ks[k].target
  {
    ArchiveEntries(base, items, Target);
  }

  /** `executeCommandAndWait`: create and start an exec of `cmd`, then
      poll it until it stops; it succeeds when it exits with code 0. */
  ghost function WaitedRun(script: nat -> Answer, n: nat, target: string, cmd: seq<string>): Run<Status>
    requires Fair(script)
  {
    var create, start := script(n), script(n + 1);
    if !create.ok then Run([ExecCreate(target, cmd, false)], Failure("failed to create exec: " + create.err))
    else if !start.ok then
      Run([ExecCreate(target, cmd, false), ExecStart(create.id)], Failure("failed to start exec: " + start.err))
    else
      var poll := PollRun(script, n + 2, create.id);
      Run([ExecCreate(target, cmd, false), ExecStart(create.id)] + poll.calls, poll.value)
  }

  lemma WaitedSplit(script: nat -> Answer, n: nat, m: nat, target: string, cmd: seq<string>)
    requires Fair(script)
    requires script(n).ok && script(n + 1).ok && m == n + 2
    ensures WaitedRun(script, n, target, cmd)
         == Run([ExecCreate(target, cmd, false), ExecStart(script(n).id)] + PollRun(script, m, script(n).id).calls,
                PollRun(script, m, script(n).id).value)
  {
  }

  method ExecuteCommandAndWait(w: World, target: string, cmd: seq<string>) returns (st: Status)
    requires w.Valid()
    modifies w
    ensures w.Valid()
    ensures w.log == old(w.log) + WaitedRun(w.script, |old(w.log)|, target, cmd).calls
    ensures st == WaitedRun(w.script, |old(w.log)|, target, cmd).value
  {
    var exec := w.Call(ExecCreate(target, cmd, false));
    if !exec.ok {
      return Failure("failed to create exec: " + exec.err);
    }
    var start := w.Call(ExecStart(exec.id));
    if !start.ok {
      return Failure("failed to start exec: " + start.err);
    }
    ghost var mid := w.log;
    WaitedSplit(w.script, |old(w.log)|, |mid|, target, cmd);
    st := Poll(w, exec.id);
    Assoc(old(w.log), [ExecCreate(target, cmd, false), ExecStart(exec.id)], PollRun(w.script, |mid|, exec.id).calls);
  }

  /** A waited command succeeds exactly when it was created and started
      and the inspection that ended the wait reports exit code 0; a
      non-zero code is an error carrying that code. */
  lemma WaitedSucceedsIff(script: nat -> Answer, n: nat, target: string, cmd: seq<string>)
    requires Fair(script)
    ensures var r := WaitedRun(script, n, target, cmd);
      var last := script(n + |r.calls| - 1);
      && r.calls[0] == ExecCreate(target, cmd, false)
      && (r.value == Success <==> script(n).ok && script(n + 1).ok && last.ok && !last.running && last.exitCode == 0)
      && (script(n).ok && script(n + 1).ok && last.ok && last.exitCode != 0 ==>
            r.value == Failure("command exited with code " + Strs.IntToString(last.exitCode)))
  {
    if script(n).ok && script(n + 1).ok {
      WaitedSplit(script, n, n + 2, target, cmd);
      PollSucceedsIff(script, n + 2, script(n).id);
    }
  }

  const TmpDir: string := "/tmp"

  /** `copyTarToContainer`: check the container, make sure `/tmp` exists,
      then copy the archive's entries there. */
  ghost function UploadRun(script: nat -> Answer, n: nat, target: string, entries: seq<Entry>): Run<Status>
    requires Fair(script)
  {
    if !script(n).ok then Run([Inspect(target)], Failure("failed to inspect container: " + script(n).err))
    else
      var made := WaitedRun(script, n + 1, target, ["mkdir", "-p", TmpDir]);
      match made.value
      case Failure(e) => Run([Inspect(target)] + made.calls, Failure("failed to create destination directory: " + e))
      case Success =>
        var copy := script(n + 1 + |made.calls|);
        Run([Inspect(target)] + made.calls + [CopyTo(target, TmpDir, entries)],
            if copy.ok then Success else Failure("failed to copy to container: " + copy.err))
  }

  method CopyTarToContainer(w: World, target: string, entries: seq<Entry>) returns (st: Status)
    requires w.Valid()
    modifies w
    ensures w.Valid()
    ensures w.log == old(w.log) + UploadRun(w.script, |old(w.log)|, target, entries).calls
    ensures st == UploadRun(w.script, |old(w.log)|, target, entries).value
  {
    var inspect := w.Call(Inspect(target));
    if !inspect.ok {
      return Failure("failed to inspect container: " + inspect.err);
    }
    ghost var mid := w.log;
    var made := ExecuteCommandAndWait(w, target, ["mkdir", "-p", TmpDir]);
    Assoc(old(w.log), [Inspect(target)], WaitedRun(w.script, |mid|, target, ["mkdir", "-p", TmpDir]).calls);
    if made.Failure? {
      return Failure("failed to create destination directory: " + made.err);
    }
    var copy := w.Call(CopyTo(target, TmpDir, entries));
    if !copy.ok {
      return Failure("failed to copy to container: " + copy.err);
    }
    return Success;
  }

  /** `extractTarInContainer`: `mkdir -p dest`, then `tar -xf` of the
      named archive into it, each waited for. */
  ghost function ExtractRun(script: nat -> Answer, n: nat, target: string, tarFile: string, dest: string): Run<Status>
    requires Fair(script)
  {
    var made := WaitedRun(script, n, target, ["mkdir", "-p", dest]);
    match made.value
    case Failure(e) => Run(made.calls, Failure("failed to create destination directory: " + e))
    case Success =>
      var unpacked := WaitedRun(script, n + |made.calls|, target, ["tar", "-xf", tarFile, "-C", dest]);
      Run(made.calls + unpacked.calls, match unpacked.value
        case Success => Success
        case Failure(e) => Failure("failed to extract tar archive: " + e))
  }

  lemma ExtractSplit(script: nat -> Answer, n: nat, m: nat, target: string, tarFile: string, dest: string)
    requires Fair(script)
    requires WaitedRun(script, n, target, ["mkdir", "-p", dest]).value == Success
    requires m == n + |WaitedRun(script, n, target, ["mkdir", "-p", dest]).calls|
    ensures var unpacked := WaitedRun(script, m, target, ["tar", "-xf", tarFile, "-C", dest]);
      && ExtractRun(script, n, target, tarFile, dest).calls
         == WaitedRun(script, n, target, ["mkdir", "-p", dest]).calls + unpacked.calls
      && (ExtractRun(script, n, target, tarFile, dest).value == Success <==> unpacked.value == Success)
  {
  }

  method ExtractTarInContainer(w: World, target: string, tarFile: string, dest: string) returns (st: Status)
    requires w.Valid()
    modifies w
    ensures w.Valid()
    ensures w.log == old(w.log) + ExtractRun(w.script, |old(w.log)|, target, tarFile, dest).calls
    ensures st == ExtractRun(w.script, |old(w.log)|, target, tarFile, dest).value
  {
    var made := ExecuteCommandAndWait(w, target, ["mkdir", "-p", dest]);
    if made.Failure? {
      return Failure("failed to create destination directory: " + made.err);
    }
    ghost var mid := w.log;
    ExtractSplit(w.script, |old(w.log)|, |mid|, target, tarFile, dest);
    var unpacked := ExecuteCommandAndWait(w, target, ["tar", "-xf", tarFile, "-C", dest]);
    Assoc(old(w.log), WaitedRun(w.script, |old(w.log)|, target, ["mkdir", "-p", dest]).calls,
          WaitedRun(w.script, |mid|, target, ["tar", "-xf", tarFile, "-C", dest]).calls);
    if unpacked.Failure? {
      return Failure("failed to extract tar archive: " + unpacked.err);
    }
    return Success;
  }

  /** The archive name `extractTarInContainer` is given:
      `/tmp/project_<base>.tar`. */
  function TarFileName(src: string): string
  {
    Paths.Join(TmpDir, "project_" + Paths.Base(src) + ".tar")
  }

  function Copied(target: string, src: string, dest: string): Reply
  {
    Text("Successfully copied " + src + " to " + dest + " in container " + target, false)
  }

  /** Unpack, then remove the temporary archive; a failed removal is only
      a warning on the server's output and does not change the reply. */
  ghost function FinishRun(script: nat -> Answer, n: nat, target: string, src: string, dest: string): Run<Reply>
    requires Fair(script)
  {
    var unpacked := ExtractRun(script, n, target, TarFileName(src), dest);
    match unpacked.value
    case Failure(e) => Run(unpacked.calls, Text("Error extracting archive in container: " + e, false))
    case Success =>
      var removed := WaitedRun(script, n + |unpacked.calls|, target, ["rm", TarFileName(src)]);
      Run(unpacked.calls + removed.calls, Copied(target, src, dest))
  }

  lemma FinishSplit(script: nat -> Answer, n: nat, m: nat, target: string, src: string, dest: string)
    requires Fair(script)
    requires ExtractRun(script, n, target, TarFileName(src), dest).value == Success
    requires m == n + |ExtractRun(script, n, target, TarFileName(src), dest).calls|
    ensures FinishRun(script, n, target, src, dest)
         == Run(ExtractRun(script, n, target, TarFileName(src), dest).calls + WaitedRun(script, m, target, ["rm", TarFileName(src)]).calls,
                Copied(target, src, dest))
  {
  }

  method Finish(w: World, target: string, src: string, dest: string) returns (reply: Reply)
    requires w.Valid()
    modifies w
    ensures w.Valid()
    ensures w.log == old(w.log) + FinishRun(w.script, |old(w.log)|, target, src, dest).calls
    ensures reply == FinishRun(w.script, |old(w.log)|, target, src, dest).value
  {
    var tarFile := TarFileName(src);
    var unpacked := ExtractTarInContainer(w, target, tarFile, dest);
    if unpacked.Failure? {
      return Text("Error extracting archive in container: " + unpacked.err, false);
    }
    ghost var mid := w.log;
    FinishSplit(w.script, |old(w.log)|, |mid|, target, src, dest);
    var _ := ExecuteCommandAndWait(w, target, ["rm", tarFile]);
    Assoc(old(w.log), ExtractRun(w.script, |old(w.log)|, target, tarFile, dest).calls,
          WaitedRun(w.script, |mid|, target, ["rm", tarFile]).calls);
    reply := Copied(target, src, dest);
  }

  /** Upload the archive, then finish; an upload failure stops there. */
  ghost function ShipRun(script: nat -> Answer, n: nat, target: string, src: string, dest: string, entries: seq<Entry>): Run<Reply>
    requires Fair(script)
  {
    var uploaded := UploadRun(script, n, target, entries);
    match uploaded.value
    case Failure(e) => Run(uploaded.calls, Text("Error copying to container: " + e, false))
    case Success =>
      var finished := FinishRun(script, n + |uploaded.calls|, target, src, dest);
      Run(uploaded.calls + finished.calls, finished.value)
  }

  lemma ShipSplit(script: nat -> Answer, n: nat, m: nat, target: string, src: string, dest: string, entries: seq<Entry>)
    requires Fair(script)
    requires UploadRun(script, n, target, entries).value == Success
    requires m == n + |UploadRun(script, n, target, entries).calls|
    ensures ShipRun(script, n, target, src, dest, entries)
         == Run(UploadRun(script, n, target, entries).calls + FinishRun(script, m, target, src, dest).calls,
                FinishRun(script, m, target, src, dest).value)
  {
  }

  method Ship(w: World, target: string, src: string, dest: string, entries: seq<Entry>) returns (reply: Reply)
    requires w.Valid()
    modifies w
    ensures w.Valid()
    ensures w.log == old(w.log) + ShipRun(w.script, |old(w.log)|, target, src, dest, entries).calls
    ensures reply == ShipRun(w.script, |old(w.log)|, target, src, dest, entries).value
  {
    var uploaded := CopyTarToContainer(w, target, entries);
    if uploaded.Failure? {
      return Text("Error copying to container: " + uploaded.err, false);
    }
    ghost var mid := w.log;
    ShipSplit(w.script, |old(w.log)|, |mid|, target, src, dest, entries);
    reply := Finish(w, target, src, dest);
    Assoc(old(w.log), UploadRun(w.script, |old(w.log)|, target, entries).calls,
          FinishRun(w.script, |mid|, target, src, dest).calls);
  }

  /** Archive the source, then ship the archive; an incomplete archive
      stops before anything reaches the engine. */
  ghost function PackRun(script: nat -> Answer, n: nat, target: string, src: string, dest: string): Run<Reply>
    requires Fair(script)
  {
    match Collect(Paths.Base(src), script(n).walk, OwnName)
    case Err(e) => Run([Walk(src)], Text("Error creating tar archive: " + e, false))
    case Ok(entries) =>
      var shipped := ShipRun(script, n + 1, target, src, dest, entries);
      Run([Walk(src)] + shipped.calls, shipped.value)
  }

  method Pack(w: World, target: string, src: string, dest: string) returns (reply: Reply)
    requires w.Valid()
    modifies w
    ensures w.Valid()
    ensures w.log == old(w.log) + PackRun(w.script, |old(w.log)|, target, src, dest).calls
    ensures reply == PackRun(w.script, |old(w.log)|, target, src, dest).value
  {
    var archive := CreateTarArchive(w, src, OwnName);
    if archive.Err? {
      return Text("Error creating tar archive: " + archive.msg, false);
    }
    ghost var mid := w.log;
    reply := Ship(w, target, src, dest, archive.value);
    Assoc(old(w.log), [Walk(src)], ShipRun(w.script, |mid|, target, src, dest, archive.value).calls);
  }

  /** The host side: the source must exist and be a directory before
      anything else is done. */
  ghost function CheckedRun(script: nat -> Answer, n: nat, target: string, src: string, dest: string): Run<Reply>
    requires Fair(script)
  {
    var info := script(n);
    if !info.ok then Run([Stat(src)], Text("Error accessing source directory: " + info.err, false))
    else if !info.isDir then Run([Stat(src)], Text("local_src_dir must be a directory", false))
    else
      var packed := PackRun(script, n + 1, target, src, dest);
      Run([Stat(src)] + packed.calls, packed.value)
  }

  method Checked(w: World, target: string, src: string, dest: string) returns (reply: Reply)
    requires w.Valid()
    modifies w
    ensures w.Valid()
    ensures w.log == old(w.log) + CheckedRun(w.script, |old(w.log)|, target, src, dest).calls
    ensures reply == CheckedRun(w.script, |old(w.log)|, target, src, dest).value
  {
    var info := w.Call(Stat(src));
    if !info.ok {
      return Text("Error accessing source directory: " + info.err, false);
    }
    if !info.isDir {
      return Text("local_src_dir must be a directory", false);
    }
    ghost var mid := w.log;
    reply := Pack(w, target, src, dest);
    Assoc(old(w.log), [Stat(src)], PackRun(w.script, |mid|, target, src, dest).calls);
  }

  /** The `dest_dir` argument: a string, or `""` when missing. */
  function GivenDest(args: Args): Option<string>
  {
    var d := GetString(args, "dest_dir", "");
    if d == "" then None else Some(d)
  }

  /** `CopyProject`: both arguments must be strings (possibly empty); the
      source is cleaned and the destination resolved by `Destination`. */
  ghost function CopyProjectRun(script: nat -> Answer, n: nat, args: Args): Run<Reply>
    requires Fair(script)
  {
    match RequireString(args, "container_id_or_name")
    case Err(_) => Run([], Text("container_id_or_name is required", false))
    case Ok(target) =>
      match RequireString(args, "local_src_dir")
      case Err(_) => Run([], Text("local_src_dir is required", false))
      case Ok(local) =>
        var src := Paths.Clean(local);
        CheckedRun(script, n, target, src, Destinations.Destination(GivenDest(args), src))
  }

  method CopyProjectTool(w: World, args: Args) returns (reply: Reply)
    requires w.Valid()
    modifies w
    ensures w.Valid()
    ensures w.log == old(w.log) + CopyProjectRun(w.script, |old(w.log)|, args).calls
    ensures reply == CopyProjectRun(w.script, |old(w.log)|, args).value
  {
    var target := RequireString(args, "container_id_or_name");
    if target.Err? {
      return Text("container_id_or_name is required", false);
    }
    var local := RequireString(args, "local_src_dir");
    if local.Err? {
      return Text("local_src_dir is required", false);
    }
    var src := Paths.Clean(local.value);
    reply := Checked(w, target.value, src, Destinations.Destination(GivenDest(args), src));
  }

  /** The commands run in the container, in order. */
  function Commands(calls: seq<Call>): seq<seq<string>>
    decreases |calls|
  {
    if |calls| == 0 then []
    else (if calls[0].ExecCreate? then [calls[0].cmd] else []) + Commands(calls[1..])
  }

  lemma {:induction false} CommandsAppend(a: seq<Call>, b: seq<Call>)
    ensures Commands(a + b) == Commands(a) + Commands(b)
    decreases |a|
  {
    if |a| > 0 {
      assert (a + b)[1..] == a[1..] + b;
      CommandsAppend(a[1..], b);
    } else {
      assert a + b == b;
    }
  }

  /** Polling runs no command. */
  lemma {:induction false} PollRunsNothing(script: nat -> Answer, n: nat, id: string)
    requires EventuallyStops(script, n)
    ensures Commands(PollRun(script, n, id).calls) == []
  {
    var calls := PollRun(script, n, id).calls;
    Inspections(calls, id);
  }

  lemma {:induction false} Inspections(calls: seq<Call>, id: string)
    requires forall k :: 0 <= k < |calls| ==> calls[k] == ExecInspect(id)
    ensures Commands(calls) == []
    decreases |calls|
  {
    if |calls| > 0 {
      Inspections(calls[1..], id);
    }
  }

  /** A waited command runs exactly that command. */
  lemma WaitedCommands(script: nat -> Answer, n: nat, target: string, cmd: seq<string>)
    requires Fair(script)
    ensures Commands(WaitedRun(script, n, target, cmd).calls) == [cmd]
  {
    var first := [ExecCreate(target, cmd, false)];
    assert Commands(first) == [cmd] by {
      assert first[1..] == [];
    }
    if script(n).ok && script(n + 1).ok {
      var id := script(n).id;
      WaitedSplit(script, n, n + 2, target, cmd);
      PollRunsNothing(script, n + 2, id);
      CommandsAppend(first, [ExecStart(id)] + PollRun(script, n + 2, id).calls);
      assert ([ExecStart(id)] + PollRun(script, n + 2, id).calls)[1..] == PollRun(script, n + 2, id).calls;
      assert first + ([ExecStart(id)] + PollRun(script, n + 2, id).calls)
          == [ExecCreate(target, cmd, false), ExecStart(id)] + PollRun(script, n + 2, id).calls;
    } else if script(n).ok {
      CommandsAppend(first, [ExecStart(script(n).id)]);
    }
  }

  /** The upload runs `mkdir -p /tmp` once the container was found, and
      copies the entries there only after that succeeded. */
  lemma UploadCommands(script: nat -> Answer, n: nat, target: string, entries: seq<Entry>)
    requires Fair(script)
    ensures var r := UploadRun(script, n, target, entries);
      && Commands(r.calls) == (if script(n).ok then [["mkdir", "-p", TmpDir]] else [])
      && (r.value == Success ==> r.calls[|r.calls| - 1] == CopyTo(target, TmpDir, entries))
  {
    if script(n).ok {
      var made := WaitedRun(script, n + 1, target, ["mkdir", "-p", TmpDir]);
      WaitedCommands(script, n + 1, target, ["mkdir", "-p", TmpDir]);
      CommandsAppend([Inspect(target)], made.calls);
      assert Commands([Inspect(target)]) == [] by {
        assert [Inspect(target)][1..] == [];
      }
      if made.value == Success {
        var copy := [CopyTo(target, TmpDir, entries)];
        CommandsAppend([Inspect(target)] + made.calls, copy);
        assert Commands(copy) == [] by {
          assert copy[1..] == [];
        }
      }
    } else {
      assert [Inspect(target)][1..] == [];
    }
  }

  /** Unpacking runs `mkdir -p dest`, then, only if that succeeded, the
      `tar -xf` of the temporary archive into `dest`. */
  lemma ExtractCommands(script: nat -> Answer, n: nat, target: string, tarFile: string, dest: string)
    requires Fair(script)
    ensures var made := WaitedRun(script, n, target, ["mkdir", "-p", dest]);
      Commands(ExtractRun(script, n, target, tarFile, dest).calls)
        == [["mkdir", "-p", dest]] + (if made.value == Success then [["tar", "-xf", tarFile, "-C", dest]] else [])
  {
    var made := WaitedRun(script, n, target, ["mkdir", "-p", dest]);
    WaitedCommands(script, n, target, ["mkdir", "-p", dest]);
    if made.value == Success {
      var m := n + |made.calls|;
      var unpacked := WaitedRun(script, m, target, ["tar", "-xf", tarFile, "-C", dest]);
      ExtractSplit(script, n, m, target, tarFile, dest);
      WaitedCommands(script, m, target, ["tar", "-xf", tarFile, "-C", dest]);
      CommandsAppend(made.calls, unpacked.calls);
    }
  }

  /** The commands that unpack the uploaded archive and then remove it. */
  function UnpackCommands(tarFile: string, dest: string): seq<seq<string>>
  {
    [["mkdir", "-p", dest], ["tar", "-xf", tarFile, "-C", dest], ["rm", tarFile]]
  }

  /** The commands of a complete copy, in order. */
  function ShippedCommands(src: string, dest: string): seq<seq<string>>
  {
    [["mkdir", "-p", TmpDir]] + UnpackCommands(TarFileName(src), dest)
  }

  /** After the upload the reply is success exactly when the unpacking
      succeeded, whatever became of the removal. */
  lemma FinishReply(script: nat -> Answer, n: nat, target: string, src: string, dest: string)
    requires Fair(script)
    ensures FinishRun(script, n, target, src, dest).value == Copied(target, src, dest)
        <==> ExtractRun(script, n, target, TarFileName(src), dest).value == Success
  {
    if ExtractRun(script, n, target, TarFileName(src), dest).value != Success {
      assert FinishRun(script, n, target, src, dest).value.text[0] == 'E';
    }
  }

  /** After the upload: the unpacking commands, then the removal once the
      unpacking succeeded; a failed unpacking stops short of the list. */
  lemma FinishCommands(script: nat -> Answer, n: nat, target: string, src: string, dest: string)
    requires Fair(script)
    ensures var tail := UnpackCommands(TarFileName(src), dest);
      var cs := Commands(FinishRun(script, n, target, src, dest).calls);
      && cs <= tail
      && (ExtractRun(script, n, target, TarFileName(src), dest).value == Success <==> cs == tail)
  {
    var tarFile := TarFileName(src);
    var tail := UnpackCommands(tarFile, dest);
    var unpacked := ExtractRun(script, n, target, tarFile, dest);
    ExtractCommands(script, n, target, tarFile, dest);
    if unpacked.value == Success {
      var m := n + |unpacked.calls|;
      var removed := WaitedRun(script, m, target, ["rm", tarFile]);
      WaitedCommands(script, m, target, ["rm", tarFile]);
      FinishSplit(script, n, m, target, src, dest);
      CommandsAppend(unpacked.calls, removed.calls);
    }
  }

  /** Putting one command in front keeps a prefix a prefix, and keeps the
      whole list whole. */
  lemma PrefixAfter(x: seq<string>, cs: seq<seq<string>>, tail: seq<seq<string>>)
    requires cs <= tail
    ensures [x] + cs <= [x] + tail
    ensures [x] + cs == [x] + tail <==> cs == tail
  {
    if [x] + cs == [x] + tail {
      assert cs == ([x] + cs)[1..];
    }
  }

  /** The container commands run in a fixed order — `mkdir -p /tmp`,
      `mkdir -p dest`, `tar -xf`, `rm` — and the first failure stops the
      rest: the commands run are always a prefix of that list, and the
      reply reports success exactly when all of them ran, whatever became
      of the removal. */
  lemma ShipOrder(script: nat -> Answer, n: nat, target: string, src: string, dest: string, entries: seq<Entry>)
    requires Fair(script)
    ensures var r := ShipRun(script, n, target, src, dest, entries);
      var cs := Commands(r.calls);
      && cs <= ShippedCommands(src, dest)
      && (r.value == Copied(target, src, dest) <==> cs == ShippedCommands(src, dest))
  {
    var uploaded := UploadRun(script, n, target, entries);
    UploadCommands(script, n, target, entries);
    var tail := UnpackCommands(TarFileName(src), dest);
    var mkTmp := ["mkdir", "-p", TmpDir];
    if uploaded.value == Success {
      var m := n + |uploaded.calls|;
      var finished := FinishRun(script, m, target, src, dest);
      FinishCommands(script, m, target, src, dest);
      FinishReply(script, m, target, src, dest);
      ShipSplit(script, n, m, target, src, dest, entries);
      CommandsAppend(uploaded.calls, finished.calls);
      PrefixAfter(mkTmp, Commands(finished.calls), tail);
    } else {
      ShipRefused(script, n, target, src, dest, entries);
    }
  }

  /** A failed upload runs at most the first command and is reported as
      an error. */
  lemma ShipRefused(script: nat -> Answer, n: nat, target: string, src: string, dest: string, entries: seq<Entry>)
    requires Fair(script)
    requires UploadRun(script, n, target, entries).value != Success
    ensures var r := ShipRun(script, n, target, src, dest, entries);
      && Commands(r.calls) <= [["mkdir", "-p", TmpDir]]
      && r.value.Text? && r.value.text[0] == 'E'
  {
    UploadCommands(script, n, target, entries);
  }

  /** A call that creates no exec adds no command. */
  lemma SkipCall(c: Call, rest: seq<Call>)
    requires !c.ExecCreate?
    ensures Commands([c] + rest) == Commands(rest)
  {
    assert ([c] + rest)[1..] == rest;
  }

  /** The host-side refusals — a missing source, a source that is not a
      directory, an archive that fails — reach no container: at most the
      source is examined and walked. */
  lemma HostRefusals(script: nat -> Answer, n: nat, target: string, src: string, dest: string)
    requires Fair(script)
    ensures var r := CheckedRun(script, n, target, src, dest);
      && (!script(n).ok || !script(n).isDir ==> r.calls == [Stat(src)])
      && (script(n).ok && script(n).isDir && Collect(Paths.Base(src), script(n + 1).walk, OwnName).Err? ==>
            r == Run([Stat(src), Walk(src)],
                     Text("Error creating tar archive: " + Collect(Paths.Base(src), script(n + 1).walk, OwnName).msg, false)))
  {
  }

  /** The whole tool after the arguments: the container commands run are a
      prefix of `mkdir -p /tmp`, `mkdir -p dest`, `tar -xf`, `rm`, and the
      reply reports success exactly when all four ran. */
  lemma CheckedOrder(script: nat -> Answer, n: nat, target: string, src: string, dest: string)
    requires Fair(script)
    ensures var r := CheckedRun(script, n, target, src, dest);
      var cs := Commands(r.calls);
      && cs <= ShippedCommands(src, dest)
      && (r.value == Copied(target, src, dest) <==> cs == ShippedCommands(src, dest))
  {
    var r := CheckedRun(script, n, target, src, dest);
    var info := script(n);
    if !info.ok || !info.isDir {
      SkipCall(Stat(src), []);
      assert r.value.text[0] != 'S';
    } else {
      var archive := Collect(Paths.Base(src), script(n + 1).walk, OwnName);
      if archive.Err? {
        SkipCall(Stat(src), [Walk(src)]);
        SkipCall(Walk(src), []);
        assert r.value.text[0] == 'E';
      } else {
        var shipped := ShipRun(script, n + 2, target, src, dest, archive.value);
        CheckedShips(script, n, target, src, dest);
        ShipOrder(script, n + 2, target, src, dest, archive.value);
        SkipCall(Walk(src), shipped.calls);
        SkipCall(Stat(src), [Walk(src)] + shipped.calls);
      }
    }
  }

  /** A directory that archives cleanly is shipped as is. */
  lemma CheckedShips(script: nat -> Answer, n: nat, target: string, src: string, dest: string)
    requires Fair(script)
    requires script(n).ok && script(n).isDir && Collect(Paths.Base(src), script(n + 1).walk, OwnName).Ok?
    ensures var shipped := ShipRun(script, n + 2, target, src, dest, Collect(Paths.Base(src), script(n + 1).walk, OwnName).value);
      CheckedRun(script, n, target, src, dest) == Run([Stat(src)] + ([Walk(src)] + shipped.calls), shipped.value)
  {
  }

  /** A missing argument stops the tool before anything is done. */
  lemma ArgumentsRequired(script: nat -> Answer, n: nat, args: Args)
    requires Fair(script)
    requires RequireString(args, "container_id_or_name").Err? || RequireString(args, "local_src_dir").Err?
    ensures CopyProjectRun(script, n, args).calls == []
    ensures CopyProjectRun(script, n, args).value.text
      == if RequireString(args, "container_id_or_name").Err? then "container_id_or_name is required" else "local_src_dir is required"
  {
  }
}
