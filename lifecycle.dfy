/** The sandbox lifecycle tools: `initialize.go` (pull, create, start),
    `stop-container.go` (stop, then remove) and `list.go` (the engine's
    container listing as sandbox records). */
module Lifecycle {
  import opened Wrappers
  import opened Engine
  import opened Mcp

  const DefaultImage: string := "python:3.12-slim-bookworm"

  /** The configuration `createContainer` creates with. */
  function SandboxConfig(image: string): Config
  {
    Config(image, [], "/app", true, true)
  }

  /** `createContainer`: pull, create, start, each only after the previous
      one succeeded; the ID once the container has started. */
  function CreateRun(script: nat -> Answer, n: nat, image: string, name: string): Run<Result<string>>
  {
    var pull, create, start := script(n), script(n + 1), script(n + 2);
    var cfg := SandboxConfig(image);
    if !pull.ok then Run([Pull(image)], Err("failed to pull Docker image " + image + ": " + pull.err))
    else if !create.ok then Run([Pull(image), Create(cfg, [], name)], Err("failed to create container: " + create.err))
    else if !start.ok then
      Run([Pull(image), Create(cfg, [], name), Start(create.id)], Err("failed to start container: " + start.err))
    else Run([Pull(image), Create(cfg, [], name), Start(create.id)], Ok(create.id))
  }

  method CreateContainer(w: World, image: string, name: string) returns (r: Result<string>)
    requires w.Valid()
    modifies w
    ensures w.Valid()
    ensures w.log == old(w.log) + CreateRun(w.script, |old(w.log)|, image, name).calls
    ensures r == CreateRun(w.script, |old(w.log)|, image, name).value
  {
    var pull := w.Call(Pull(image));
    if !pull.ok {
      return Err("failed to pull Docker image " + image + ": " + pull.err);
    }
    var create := w.Call(Create(SandboxConfig(image), [], name));
    if !create.ok {
      return Err("failed to create container: " + create.err);
    }
    var start := w.Call(Start(create.id));
    if !start.ok {
      return Err("failed to start container: " + start.err);
    }
    return Ok(create.id);
  }

  /** `InitializeEnvironment`: the image and name arguments with their
      defaults; every failure is a plain text reply. */
  function InitializeRun(script: nat -> Answer, n: nat, args: Args): Run<Reply>
  {
    var image := GetString(args, "image", DefaultImage);
    var name := GetString(args, "name", "");
    var r := CreateRun(script, n, image, name);
    Run(r.calls, match r.value
      case Ok(id) => Text("container_id: " + id, false)
      case Err(e) => Text("Error: " + e, false))
  }

  method InitializeEnvironment(w: World, args: Args) returns (reply: Reply)
    requires w.Valid()
    modifies w
    ensures w.Valid()
    ensures w.log == old(w.log) + InitializeRun(w.script, |old(w.log)|, args).calls
    ensures reply == InitializeRun(w.script, |old(w.log)|, args).value
  {
    var image := GetString(args, "image", DefaultImage);
    var name := GetString(args, "name", "");
    var r := CreateContainer(w, image, name);
    match r
    case Ok(id) => reply := Text("container_id: " + id, false);
    case Err(e) => reply := Text("Error: " + e, false);
  }

  /** Each step runs only when the previous one succeeded, and an ID is
      returned only when the start of that very container succeeded. */
  lemma CreateOrder(script: nat -> Answer, n: nat, image: string, name: string)
    ensures var r := CreateRun(script, n, image, name);
      && 1 <= |r.calls| <= 3 && r.calls[0] == Pull(image)
      && (|r.calls| >= 2 <==> script(n).ok)
      && (|r.calls| == 3 <==> script(n).ok && script(n + 1).ok)
      && (|r.calls| >= 2 ==> r.calls[1] == Create(Config(image, [], "/app", true, true), [], name))
      && (r.value.Ok? <==> script(n).ok && script(n + 1).ok && script(n + 2).ok)
      && (r.value.Ok? ==> r.calls[2] == Start(r.value.value) && r.value.value == script(n + 1).id)
  {
  }

  /** After a successful initialisation the engine holds a running
      container with the requested name and image under the returned ID. */
  lemma CreateLeavesRunning(st: State, script: nat -> Answer, n: nat, image: string, name: string)
    requires CreateRun(script, n, image, name).value.Ok?
    ensures var r := CreateRun(script, n, image, name);
      var after := Replay(st, script, n, r.calls);
      r.value.value in after.containers && after.containers[r.value.value] == Container(name, image, Running)
  {
    var r := CreateRun(script, n, image, name);
    var id := r.value.value;
    var s1 := Step(st, r.calls[0], script(n));
    var s2 := Step(s1, r.calls[1], script(n + 1));
    var s3 := Step(s2, r.calls[2], script(n + 2));
    assert s2.containers[id] == Container(name, image, Created);
    assert s3.containers[id] == Container(name, image, Running);
    assert r.calls[1..][1..][1..] == [];
    assert Replay(s3, script, n + 3, []) == s3;
    assert Replay(s2, script, n + 2, r.calls[2..]) == s3;
    assert Replay(s1, script, n + 1, r.calls[1..]) == s3;
  }

  /** The reply of `initialize_sandbox`: the ID on success, `Error: ...`
      otherwise, never a protocol error and never an error-flagged result;
      missing arguments take their defaults. */
  lemma InitializeReply(script: nat -> Answer, n: nat, args: Args)
    ensures var r := InitializeRun(script, n, args);
      && r.value.Text? && !r.value.isError
      && (script(n).ok && script(n + 1).ok && script(n + 2).ok <==> r.value.text == "container_id: " + script(n + 1).id)
      && r.calls[0] == Pull(if "image" in args && args["image"].VStr? then args["image"].s else DefaultImage)
  {
    var r := InitializeRun(script, n, args);
    var c := CreateRun(script, n, GetString(args, "image", DefaultImage), GetString(args, "name", ""));
    if c.value.Err? {
      assert r.value.text[0] == 'E';
      assert ("container_id: " + script(n + 1).id)[0] == 'c';
    }
  }

  /** `stopAndRemoveContainer`: stop with a 10-second timeout, then remove
      with its volumes, forcibly. */
  function StopRun(script: nat -> Answer, n: nat, id: string): Run<Status>
  {
    var stop, remove := script(n), script(n + 1);
    if !stop.ok then Run([Stop(id, 10)], Failure("failed to stop container: " + stop.err))
    else if !remove.ok then Run([Stop(id, 10), Remove(id, true, true)], Failure("failed to remove container: " + remove.err))
    else Run([Stop(id, 10), Remove(id, true, true)], Success)
  }

  method StopAndRemoveContainer(w: World, id: string) returns (st: Status)
    requires w.Valid()
    modifies w
    ensures w.Valid()
    ensures w.log == old(w.log) + StopRun(w.script, |old(w.log)|, id).calls
    ensures st == StopRun(w.script, |old(w.log)|, id).value
  {
    var stop := w.Call(Stop(id, 10));
    if !stop.ok {
      return Failure("failed to stop container: " + stop.err);
    }
    var remove := w.Call(Remove(id, true, true));
    if !remove.ok {
      return Failure("failed to remove container: " + remove.err);
    }
    return Success;
  }

  /** `StopContainer`: a missing or empty `container_id` is refused before
      any engine call. */
  function StopContainerRun(script: nat -> Answer, n: nat, args: Args): Run<Reply>
  {
    match NonEmptyStr(args, "container_id")
    case None => Run([], Text("Error: container_id is required", false))
    case Some(id) =>
      var r := StopRun(script, n, id);
      Run(r.calls, match r.value
        case Success => Text("Successfully stopped and removed container: " + id, false)
        case Failure(e) => Text("Error: " + e, false))
  }

  method StopContainer(w: World, args: Args) returns (reply: Reply)
    requires w.Valid()
    modifies w
    ensures w.Valid()
    ensures w.log == old(w.log) + StopContainerRun(w.script, |old(w.log)|, args).calls
    ensures reply == StopContainerRun(w.script, |old(w.log)|, args).value
  {
    var id := NonEmptyStr(args, "container_id");
    if id.None? {
      return Text("Error: container_id is required", false);
    }
    var st := StopAndRemoveContainer(w, id.value);
    match st
    case Success => reply := Text("Successfully stopped and removed container: " + id.value, false);
    case Failure(e) => reply := Text("Error: " + e, false);
  }

  /** Without a usable `container_id` nothing reaches the engine. */
  lemma StopNeedsId(script: nat -> Answer, n: nat, args: Args)
    requires !(("container_id" in args) && args["container_id"].VStr? && args["container_id"].s != "")
    ensures StopContainerRun(script, n, args).calls == []
    ensures StopContainerRun(script, n, args).value.text == "Error: container_id is required"
  {
  }

  /** Stop always comes first, remove is attempted only after a successful
      stop, and a successful reply means both succeeded and the container
      is gone from the engine. */
  lemma StopThenRemove(st: State, script: nat -> Answer, n: nat, args: Args, id: string)
    requires "container_id" in args && args["container_id"] == VStr(id) && id != ""
    ensures var r := StopContainerRun(script, n, args);
      && 1 <= |r.calls| <= 2 && r.calls[0] == Stop(id, 10)
      && (|r.calls| == 2 <==> script(n).ok)
      && (|r.calls| == 2 ==> r.calls[1] == Remove(id, true, true))
      && (r.value == Text("Successfully stopped and removed container: " + id, false) <==> script(n).ok && script(n + 1).ok)
      && (script(n).ok && script(n + 1).ok ==> id !in Replay(st, script, n, r.calls).containers)
  {
    var r := StopContainerRun(script, n, args);
    var prefix := "Successfully stopped and removed container: ";
    assert prefix[0] == 'S';
    assert (prefix + id)[0] == 'S';
    if !(script(n).ok && script(n + 1).ok) {
      assert r.value.text[0] == 'E';
    } else {
      var s1 := Step(st, r.calls[0], script(n));
      var s2 := Step(s1, r.calls[1], script(n + 1));
      assert id !in s2.containers;
      assert r.calls[1..][1..] == [];
      assert Replay(s2, script, n + 2, []) == s2;
      assert Replay(s1, script, n + 1, r.calls[1..]) == s2;
    }
  }

  /** One element of `list_sandboxes`'s reply. */
  datatype SandboxInfo = SandboxInfo(containerId: string, name: string, image: string, status: string)

  /** `strings.TrimPrefix(s, "/")`. */
  function TrimSlash(s: string): (r: string)
    ensures |s| > 0 && s[0] == '/' ==> s == "/" + r
    ensures !(|s| > 0 && s[0] == '/') ==> r == s
  {
    if |s| > 0 && s[0] == '/' then s[1..] else s
  }

  /** `infos` holds one record per listed container, in order, with the
      short ID, the first name without its leading slash (or empty), and
      the image and status unchanged. */
  predicate Summarises(infos: seq<SandboxInfo>, listing: seq<Listed>)
  {
    && |infos| == |listing|
    && forall i :: 0 <= i < |listing| ==>
      && |listing[i].id| >= 12
      && infos[i].containerId == listing[i].id[..12]
      && infos[i].name == (if |listing[i].names| > 0 then TrimSlash(listing[i].names[0]) else "")
      && infos[i].image == listing[i].image
      && infos[i].status == listing[i].status
  }

  /** The mapping loop of `ListSandboxes`: one record per listed container,
      in order, with the short ID, the first name without its leading
      slash (or empty), and the image and status unchanged.  An engine ID
      shorter than 12 characters makes the slice expression panic. */
  method ToSandboxes(listing: seq<Listed>) returns (infos: seq<SandboxInfo>)
    requires forall i :: 0 <= i < |listing| ==> |listing[i].id| >= 12
    ensures Summarises(infos, listing)
  {
    infos := [];
    for i := 0 to |listing|
      invariant |infos| == i
      invariant forall j :: 0 <= j < i ==>
        && infos[j].containerId == listing[j].id[..12]
        && infos[j].name == (if |listing[j].names| > 0 then TrimSlash(listing[j].names[0]) else "")
        && infos[j].image == listing[j].image
        && infos[j].status == listing[j].status
    {
      var c := listing[i];
      var name := "";
      if |c.names| > 0 {
        name := TrimSlash(c.names[0]);
      }
      infos := infos + [SandboxInfo(c.id[..12], name, c.image, c.status)];
    }
  }

  /** `ListSandboxes`: a listing failure is a protocol error. */
  method ListSandboxes(w: World) returns (r: Result<seq<SandboxInfo>>)
    requires w.Valid()
    requires w.script(|w.log|).ok ==> forall i :: 0 <= i < |w.script(|w.log|).listing| ==> |w.script(|w.log|).listing[i].id| >= 12
    modifies w
    ensures w.Valid()
    ensures w.log == old(w.log) + [List]
    ensures var a := w.script(|old(w.log)|);
      && (r.Err? <==> !a.ok)
      && (r.Err? ==> r.msg == "CONTAINER_LIST_ERROR: failed to list containers: " + a.err)
      && (r.Ok? ==> Summarises(r.value, a.listing))
  {
    var a := w.Call(List);
    if !a.ok {
      return Err("CONTAINER_LIST_ERROR: failed to list containers: " + a.err);
    }
    var infos := ToSandboxes(a.listing);
    return Ok(infos);
  }
}
