/** The Docker engine, the host filesystem and the MCP client as the tools
    see them: an oracle.  Every request a tool makes, to the engine API, to
    the host (`os` and `filepath.Walk`) or to the client, is one `Call`; the
    n-th call of a session receives the n-th `Answer` of a fixed script.
    The `World` keeps the log of calls and the state those calls produced
    (containers by ID, host files and directories), which is always the
    replay of the log. */
module Engine {
  import opened Wrappers
  import Strs
  import Utf8

  type byte = Utf8.byte

  datatype Phase = Created | Running | Exited

  /** An engine record: name, image and state. */
  datatype Container = Container(name: string, image: string, phase: Phase)

  /** The parts of `container.Config` the tools set. */
  datatype Config = Config(image: string, cmd: seq<string>, workingDir: string, tty: bool, openStdin: bool)

  /** File types, as `os.FileMode` and a tar type flag distinguish them. */
  datatype Kind = Regular | Directory | Symlink | Socket | Special

  /** A tar entry: its header (name, type, mode, size, link target) and, for
      a regular file, its bytes. */
  datatype Entry = Entry(name: string, kind: Kind, mode: int, size: int, linkname: string, payload: Option<seq<byte>>)

  /** One element of an engine container listing. */
  datatype Listed = Listed(id: string, names: seq<string>, image: string, status: string)

  datatype File = File(data: seq<byte>, mode: int)

  /** One visit of `filepath.Walk`: the path relative to the root (`.` for
      the root itself), the error passed to the callback if any, the file's
      type, mode, size and link target, and the result of reading it. */
  datatype WalkItem = WalkItem(rel: string, failure: Option<string>, kind: Kind, mode: int, size: int,
                               target: string, content: Result<seq<byte>>)

  datatype Call =
    // engine
    | Pull(ref: string)
    | Create(config: Config, binds: seq<string>, name: string)
    | Start(id: string)
    | Wait(id: string)
    | Logs(id: string, showStdout: bool, showStderr: bool)
    | Demux(source: string)                 // `stdcopy.StdCopy` over the stream last opened on `source`
    | Stop(id: string, timeout: int)
    | Remove(id: string, removeVolumes: bool, force: bool)
    | List
    | Inspect(target: string)
    | ExecCreate(target: string, cmd: seq<string>, attachStdin: bool)
    | ExecStart(execId: string)
    | ExecAttach(execId: string)
    | Feed(execId: string, input: string)   // `io.Copy` into the exec's stdin
    | CloseStdin(execId: string)
    | ExecInspect(execId: string)
    | CopyTo(target: string, dir: string, entries: seq<Entry>)
    | CopyFrom(target: string, path: string)
    // host
    | MkdirTemp(pattern: string)
    | WriteFile(path: string, data: seq<byte>, mode: int)
    | MkdirAll(path: string, mode: int)
    | CreateFile(path: string)
    | WriteInto(path: string, data: seq<byte>)
    | Chmod(path: string, mode: int)
    | Stat(path: string)
    | Walk(root: string)
    | Open(path: string)
    | ReadAll(path: string)
    // client
    | Notify(progress: int)                 // a `notifications/progress` message

  /** What a call gets back: success or an error message, and the fields
      the different calls fill in. */
  datatype Answer = Answer(
    ok: bool, err: string, missing: bool, // missing: the error is a does-not-exist error
    id: string,                        // created container, exec, or temporary directory
    running: bool, exitCode: int,      // exec inspection
    stdout: string, stderr: string,    // demultiplexed output
    isDir: bool, mode: int, size: int, // stat results
    entries: seq<Entry>,               // archive read from a container
    listing: seq<Listed>,              // container listing
    walk: seq<WalkItem>,               // directory walk
    data: seq<byte>)                   // file contents read

  datatype State = State(containers: map<string, Container>, files: map<string, File>, dirs: set<string>)

  /** The mode `os.Chmod` gives a file for `os.FileMode(m)`: the value is
      cut to 32 bits, its permission bits are kept, and Go's own setuid,
      setgid and sticky flags (bits 23, 22 and 20) become the Unix bits
      04000, 02000 and 01000.  Every other bit of `m`, the Unix 04000,
      02000 and 01000 among them, is dropped. */
  function ChmodBits(m: int): (r: nat)
    ensures r < 0x1000
    ensures r % 0x200 == m % 0x200
  {
    var u := m % 0x1_0000_0000;
    var special := 4 * Flag(u, 0x80_0000) + 2 * Flag(u, 0x40_0000) + Flag(u, 0x10_0000);
    PermissionsKept(m, u, special);
    u % 0x200 + 0x200 * special
  }

  /** Whether the bit of value `bit` is set in `u`. */
  function Flag(u: nat, bit: nat): (b: nat)
    requires bit > 0
    ensures b <= 1
  {
    if u / bit % 2 == 1 then 1 else 0
  }

  lemma PermissionsKept(m: int, u: nat, special: nat)
    requires u == m % 0x1_0000_0000 && special < 8
    ensures u % 0x200 + 0x200 * special < 0x1000
    ensures (u % 0x200 + 0x200 * special) % 0x200 == m % 0x200
    ensures (u % 0x200 + 0x200 * special) / 0x200 == special
  {
    LowBits(m, u);
    Digits(u % 0x200, special);
  }

  /** Cutting to 32 bits keeps the low nine. */
  lemma LowBits(m: int, u: nat)
    requires u == m % 0x1_0000_0000
    ensures u % 0x200 == m % 0x200
  {
    var q := m / 0x1_0000_0000;
    var p, k := u % 0x200, u / 0x200;
    assert u == 0x200 * k + p;
    assert m == 0x200 * (0x80_0000 * q + k) + p;
  }

  lemma Digits(p: nat, special: nat)
    requires p < 0x200 && special < 8
    ensures p + 0x200 * special < 0x1000
    ensures (p + 0x200 * special) % 0x200 == p
    ensures (p + 0x200 * special) / 0x200 == special
  {
  }

  /** Each of the three special bits is set exactly when Go's matching
      flag is set in the 32-bit mode. */
  lemma ChmodFlags(m: int)
    ensures var u := m % 0x1_0000_0000;
      && (ChmodBits(m) / 0x800 == 1 <==> u / 0x80_0000 % 2 == 1)
      && (ChmodBits(m) / 0x400 % 2 == 1 <==> u / 0x40_0000 % 2 == 1)
      && (ChmodBits(m) / 0x200 % 2 == 1 <==> u / 0x10_0000 % 2 == 1)
  {
    var u := m % 0x1_0000_0000;
    var special := 4 * Flag(u, 0x80_0000) + 2 * Flag(u, 0x40_0000) + Flag(u, 0x10_0000);
    var r := ChmodBits(m);
    PermissionsKept(m, u, special);
    assert r / 0x200 == special;
    assert r / 0x800 == special / 4;
    assert r / 0x400 == special / 2;
  }

  /** A mode as a tar header records it, below Go's flag bits, keeps only
      its permission bits: a setuid `0o4755` becomes `0o755`. */
  lemma ChmodTarMode(m: int)
    requires 0 <= m < 0x10_0000
    ensures ChmodBits(m) == m % 0x200
    ensures m == 0x9ED ==> ChmodBits(m) == 0x1ED
  {
  }

  /** What a call does to the state, given its answer: failed calls change
      nothing, and neither do calls that only read. */
  function Step(st: State, c: Call, a: Answer): State
  {
    if !a.ok then st
    else match c
      case Create(cfg, _, name) =>
        st.(containers := st.containers[a.id := Container(name, cfg.image, Created)])
      case Start(id) =>
        if id in st.containers then st.(containers := st.containers[id := st.containers[id].(phase := Running)]) else st
      case Wait(id) =>
        if id in st.containers then st.(containers := st.containers[id := st.containers[id].(phase := Exited)]) else st
      case Stop(id, _) =>
        if id in st.containers then st.(containers := st.containers[id := st.containers[id].(phase := Exited)]) else st
      case Remove(id, _, _) => st.(containers := st.containers - {id})
      case MkdirTemp(_) => st.(dirs := st.dirs + {a.id})
      case MkdirAll(p, _) => st.(dirs := st.dirs + {p})
      case WriteFile(p, data, mode) => st.(files := st.files[p := File(data, mode)])
      case CreateFile(p) => st.(files := st.files[p := File([], 0x1B6)])
      case WriteInto(p, data) =>
        if p in st.files then st.(files := st.files[p := st.files[p].(data := data)]) else st
      case Chmod(p, mode) =>
        if p in st.files then st.(files := st.files[p := st.files[p].(mode := ChmodBits(mode))]) else st
      case _ => st
  }

  /** The state after `calls`, the first of which is call number `n`. */
  function Replay(st: State, script: nat -> Answer, n: nat, calls: seq<Call>): State
    decreases |calls|
  {
    if |calls| == 0 then st else Replay(Step(st, calls[0], script(n)), script, n + 1, calls[1..])
  }

  lemma {:induction false} ReplayAppend(st: State, script: nat -> Answer, n: nat, a: seq<Call>, b: seq<Call>)
    ensures Replay(st, script, n, a + b) == Replay(Replay(st, script, n, a), script, n + |a|, b)
    decreases |a|
  {
    if |a| > 0 {
      assert (a + b)[0] == a[0] && (a + b)[1..] == a[1..] + b;
      ReplayAppend(Step(st, a[0], script(n)), script, n + 1, a[1..], b);
    } else {
      assert a + b == b;
    }
  }

  /** An exec inspection that ends a poll: an error, or not running. */
  predicate Stops(a: Answer)
  {
    !a.ok || !a.running
  }

  predicate StopsAt(script: nat -> Answer, n: nat, k: nat)
  {
    Stops(script(n + k))
  }

  ghost predicate EventuallyStops(script: nat -> Answer, n: nat)
  {
    exists k: nat :: StopsAt(script, n, k)
  }

  /** From every point on, an inspection eventually ends a poll: every exec
      finishes.  (A poll that never ends is a hang of the Go code.) */
  ghost predicate Fair(script: nat -> Answer)
  {
    forall n: nat :: EventuallyStops(script, n)
  }

  /** The calls a run made and the value it produced. */
  datatype Run<T> = Run(calls: seq<Call>, value: T)

  /** Regrouping a log made of three parts. */
  lemma Assoc(a: seq<Call>, b: seq<Call>, c: seq<Call>)
    ensures (a + b) + c == a + (b + c)
  {
  }

  /** The two parts of a log made of two parts. */
  lemma Halves(a: seq<Call>, b: seq<Call>)
    ensures (a + b)[..|a|] == a && (a + b)[|a|..] == b
  {
  }

  /** The outcome of a step that yields nothing but success or an error. */
  datatype Status = Success | Failure(err: string)

  /** The outside world as the handlers see it: the scripted answers, the
      state the engine and the host started in, and the calls issued so
      far.  The current state of the engine and the host is the replay of
      the log (`State`). */
  class World {
    const script: nat -> Answer
    ghost const init: State
    var log: seq<Call>

    ghost predicate Valid()
      reads this
    {
      Fair(script)
    }

    /** The state of the engine and the host after the calls issued so far. */
    ghost function State(): State
      reads this
    {
      Replay(init, script, 0, log)
    }

    constructor (script: nat -> Answer, init: State)
      requires Fair(script)
      ensures Valid()
      ensures this.script == script && this.init == init && log == []
      ensures State() == init
    {
      this.script := script;
      this.init := init;
      log := [];
    }

    /** Issue one call: it is logged and receives the next scripted answer;
        the state takes its effect (`StateAfterCall`). */
    method Call(c: Call) returns (a: Answer)
      requires Valid()
      modifies this
      ensures Valid()
      ensures log == old(log) + [c]
      ensures a == script(|old(log)|)
    {
      a := script(|log|);
      log := log + [c];
    }
  }

  /** One more call moves the world's state by one step. */
  lemma StateAfterCall(init: State, script: nat -> Answer, log: seq<Call>, c: Call)
    ensures Replay(init, script, 0, log + [c]) == Step(Replay(init, script, 0, log), c, script(|log|))
  {
    ReplayAppend(init, script, 0, log, [c]);
    assert Replay(Replay(init, script, 0, log), script, |log|, [c])
        == Replay(Step(Replay(init, script, 0, log), c, script(|log|)), script, |log| + 1, []);
  }

  /** The number of inspections before the first one that ends a poll
      starting at call `n`. */
  ghost function SettleIndex(script: nat -> Answer, n: nat): (k: nat)
    requires EventuallyStops(script, n)
    ensures StopsAt(script, n, k)
    ensures forall j :: 0 <= j < k ==> !StopsAt(script, n, j)
  {
    var w: nat :| StopsAt(script, n, w);
    SearchFrom(script, n, 0, w)
  }

  ghost function SearchFrom(script: nat -> Answer, n: nat, i: nat, w: nat): (k: nat)
    requires i <= w && StopsAt(script, n, w)
    requires forall j :: 0 <= j < i ==> !StopsAt(script, n, j)
    ensures i <= k <= w && StopsAt(script, n, k)
    ensures forall j :: 0 <= j < k ==> !StopsAt(script, n, j)
    decreases w - i
  {
    if StopsAt(script, n, i) then i else SearchFrom(script, n, i + 1, w)
  }

  /** The polling loop of `executeCommandAndWait` and `writeFileToContainer`:
      inspect the exec until it is no longer running; an inspection error
      or a non-zero exit code is an error. */
  ghost function PollRun(script: nat -> Answer, n: nat, execId: string): Run<Status>
    requires EventuallyStops(script, n)
  {
    var k := SettleIndex(script, n);
    var a := script(n + k);
    Run(seq(k + 1, _ => ExecInspect(execId)),
        if !a.ok then Failure("failed to inspect exec: " + a.err)
        else if a.exitCode != 0 then Failure("command exited with code " + Strs.IntToString(a.exitCode))
        else Success)
  }

  method Poll(w: World, execId: string) returns (st: Status)
    requires w.Valid()
    modifies w
    ensures w.Valid()
    ensures EventuallyStops(w.script, |old(w.log)|)
    ensures w.log == old(w.log) + PollRun(w.script, |old(w.log)|, execId).calls
    ensures st == PollRun(w.script, |old(w.log)|, execId).value
  {
    ghost var n := |w.log|;
    assert EventuallyStops(w.script, n);
    ghost var k := SettleIndex(w.script, n);
    var i := 0;
    while true
      invariant w.Valid()
      invariant 0 <= i <= k
      invariant w.log == old(w.log) + seq(i, _ => ExecInspect(execId))
      decreases k - i
    {
      var a := w.Call(ExecInspect(execId));
      assert a == w.script(n + i);
      assert seq(i, _ => ExecInspect(execId)) + [ExecInspect(execId)] == seq(i + 1, _ => ExecInspect(execId));
      if !a.ok {
        assert StopsAt(w.script, n, i);
        return Failure("failed to inspect exec: " + a.err);
      }
      if !a.running {
        assert StopsAt(w.script, n, i);
        if a.exitCode != 0 {
          return Failure("command exited with code " + Strs.IntToString(a.exitCode));
        }
        return Success;
      }
      assert !StopsAt(w.script, n, i);
      i := i + 1;
    }
  }

  /** A poll succeeds exactly when its last inspection says the exec
      stopped with code 0; every earlier inspection reported it running. */
  lemma PollSucceedsIff(script: nat -> Answer, n: nat, execId: string)
    requires EventuallyStops(script, n)
    ensures var r := PollRun(script, n, execId);
      var k := |r.calls| - 1;
      && k >= 0
      && (r.value == Success <==> script(n + k).ok && !script(n + k).running && script(n + k).exitCode == 0)
      && (forall j :: 0 <= j < k ==> !StopsAt(script, n, j))
  {
    var k := SettleIndex(script, n);
    var r := PollRun(script, n, execId);
    assert |r.calls| == k + 1;
    var a := script(n + k);
    if a.ok && a.exitCode != 0 {
      var s := "command exited with code " + Strs.IntToString(a.exitCode);
      assert s[0] == 'c';
    }
  }

  /** The wait, log and demultiplex steps that end a foreground run: the
      container's stdout and stderr, or the first error. */
  function OutputRun(script: nat -> Answer, n: nat, id: string): Run<Result<(string, string)>>
  {
    var wait := script(n);
    var logs := script(n + 1);
    var demux := script(n + 2);
    if !wait.ok then Run([Wait(id)], Err("error waiting for container: " + wait.err))
    else if !logs.ok then Run([Wait(id), Logs(id, true, true)], Err("failed to get container logs: " + logs.err))
    else if !demux.ok then Run([Wait(id), Logs(id, true, true), Demux(id)], Err("failed to copy container output: " + demux.err))
    else Run([Wait(id), Logs(id, true, true), Demux(id)], Ok((demux.stdout, demux.stderr)))
  }

  method AwaitOutput(w: World, id: string) returns (r: Result<(string, string)>)
    requires w.Valid()
    modifies w
    ensures w.Valid()
    ensures w.log == old(w.log) + OutputRun(w.script, |old(w.log)|, id).calls
    ensures r == OutputRun(w.script, |old(w.log)|, id).value
  {
    var wait := w.Call(Wait(id));
    if !wait.ok {
      return Err("error waiting for container: " + wait.err);
    }
    var logs := w.Call(Logs(id, true, true));
    if !logs.ok {
      return Err("failed to get container logs: " + logs.err);
    }
    var demux := w.Call(Demux(id));
    if !demux.ok {
      return Err("failed to copy container output: " + demux.err);
    }
    return Ok((demux.stdout, demux.stderr));
  }

  /** Output is only collected after the wait has returned, and logs are
      read exactly when the wait succeeded. */
  lemma OutputOrder(script: nat -> Answer, n: nat, id: string)
    ensures var r := OutputRun(script, n, id);
      && 1 <= |r.calls| <= 3 && r.calls[0] == Wait(id)
      && (Logs(id, true, true) in r.calls <==> script(n).ok)
      && (r.value.Ok? ==> r.calls == [Wait(id), Logs(id, true, true), Demux(id)]
                          && r.value.value == (script(n + 2).stdout, script(n + 2).stderr))
  {
  }

  /** Create an unnamed container and start it: the ID once it started,
      or the first error. */
  function StartRun(script: nat -> Answer, n: nat, cfg: Config, binds: seq<string>): Run<Result<string>>
  {
    var create := script(n);
    var start := script(n + 1);
    if !create.ok then Run([Create(cfg, binds, "")], Err("failed to create container: " + create.err))
    else if !start.ok then Run([Create(cfg, binds, ""), Start(create.id)], Err("failed to start container: " + start.err))
    else Run([Create(cfg, binds, ""), Start(create.id)], Ok(create.id))
  }

  method CreateAndStart(w: World, cfg: Config, binds: seq<string>) returns (r: Result<string>)
    requires w.Valid()
    modifies w
    ensures w.Valid()
    ensures w.log == old(w.log) + StartRun(w.script, |old(w.log)|, cfg, binds).calls
    ensures r == StartRun(w.script, |old(w.log)|, cfg, binds).value
  {
    var create := w.Call(Create(cfg, binds, ""));
    if !create.ok {
      return Err("failed to create container: " + create.err);
    }
    var start := w.Call(Start(create.id));
    if !start.ok {
      return Err("failed to start container: " + start.err);
    }
    return Ok(create.id);
  }

  /** A started container is the one just created, in the running phase. */
  lemma StartedIsCreated(st: State, script: nat -> Answer, n: nat, cfg: Config, binds: seq<string>)
    requires StartRun(script, n, cfg, binds).value.Ok?
    ensures var r := StartRun(script, n, cfg, binds);
      var id := r.value.value;
      && id == script(n).id
      && r.calls == [Create(cfg, binds, ""), Start(id)]
      && id in Replay(st, script, n, r.calls).containers
      && Replay(st, script, n, r.calls).containers[id] == Container("", cfg.image, Running)
  {
    var r := StartRun(script, n, cfg, binds);
    var s1 := Step(st, r.calls[0], script(n));
    var s2 := Step(s1, r.calls[1], script(n + 1));
    assert r.calls[1..][1..] == [];
    assert Replay(s2, script, n + 2, []) == s2;
    assert Replay(s1, script, n + 1, r.calls[1..]) == s2;
  }
}
