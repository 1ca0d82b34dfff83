/** The `exec` tool (`tools/exec.go`): run a list of shell commands in a
    container one after another and collect a transcript; the first command
    that exits with a non-zero code ends the list, and an executor error
    replaces the whole transcript with the error. */
module Exec {
  import opened Wrappers
  import Strs
  import opened Engine
  import opened Mcp

  /** What `executeCommandWithOutput` returns on success. */
  datatype Output = Output(stdout: string, stderr: string, exitCode: int)

  /** The argument `commands`: an array whose elements are all strings, or
      one string; an empty array is refused, a single empty string is not. */
  function ParseCommands(args: Args): Result<seq<string>>
  {
    match Lookup(args, "commands")
    case Some(VList(items)) =>
      if exists k :: 0 <= k < |items| && !items[k].VStr? then Err("Each command must be a string")
      else if |items| == 0 then Err("at least one command is required")
      else Ok(seq(|items|, k requires 0 <= k < |items| => items[k].s))
    case Some(VStr(s)) => Ok([s])
    case _ => Err("commands must be a string or an array of strings")
  }

  /** The collecting loop over the array elements. */
  method CommandList(items: seq<Value>) returns (r: Result<seq<string>>)
    ensures r.Ok? <==> forall k :: 0 <= k < |items| ==> items[k].VStr?
    ensures r.Ok? ==> |r.value| == |items| && forall k :: 0 <= k < |items| ==> items[k] == VStr(r.value[k])
    ensures r.Err? ==> r.msg == "Each command must be a string"
  {
    var commands: seq<string> := [];
    for i := 0 to |items|
      invariant |commands| == i
      invariant forall k :: 0 <= k < i ==> items[k] == VStr(commands[k])
    {
      if !items[i].VStr? {
        return Err("Each command must be a string");
      }
      commands := commands + [items[i].s];
    }
    return Ok(commands);
  }

  /** `s` with a newline appended unless it already ends in one. */
  function Terminated(s: string): (t: string)
    ensures |t| > 0 && t[|t| - 1] == '\n'
    ensures s <= t && |t| <= |s| + 1
  {
    if |s| > 0 && s[|s| - 1] == '\n' then s else s + "\n"
  }

  /** The transcript block of one executed command: a separating blank line
      for every command but the first, the `$ cmd` header, the output, the
      error output flagged with `Error: `, and the exit code if non-zero. */
  function Block(later: bool, cmd: string, o: Output): string
  {
    (if later then "\n\n" else "") + "$ " + cmd + "\n"
    + (if o.stdout != "" then Terminated(o.stdout) else "")
    + (if o.stderr != "" then "Error: " + Terminated(o.stderr) else "")
    + (if o.exitCode != 0 then "Command exited with code " + Strs.IntToString(o.exitCode) + "\n" else "")
  }

  /** `executeCommandWithOutput`: create an exec of `sh -c cmd`, attach to
      it, demultiplex its output, then inspect it for the exit code. */
  function CommandRun(script: nat -> Answer, n: nat, target: string, cmd: string): Run<Result<Output>>
  {
    var create, attach, copy, inspect := script(n), script(n + 1), script(n + 2), script(n + 3);
    var ec := ExecCreate(target, ["sh", "-c", cmd], false);
    var id := create.id;
    if !create.ok then Run([ec], Err("failed to create exec: " + create.err))
    else if !attach.ok then Run([ec, ExecAttach(id)], Err("failed to attach to exec: " + attach.err))
    else if !copy.ok then Run([ec, ExecAttach(id), Demux(id)], Err("failed to read command output: " + copy.err))
    else if !inspect.ok then
      Run([ec, ExecAttach(id), Demux(id), ExecInspect(id)], Err("failed to inspect exec: " + inspect.err))
    else Run([ec, ExecAttach(id), Demux(id), ExecInspect(id)], Ok(Output(copy.stdout, copy.stderr, inspect.exitCode)))
  }

  method ExecuteCommand(w: World, target: string, cmd: string) returns (r: Result<Output>)
    requires w.Valid()
    modifies w
    ensures w.Valid()
    ensures w.log == old(w.log) + CommandRun(w.script, |old(w.log)|, target, cmd).calls
    ensures r == CommandRun(w.script, |old(w.log)|, target, cmd).value
  {
    var create := w.Call(ExecCreate(target, ["sh", "-c", cmd], false));
    if !create.ok {
      return Err("failed to create exec: " + create.err);
    }
    var attach := w.Call(ExecAttach(create.id));
    if !attach.ok {
      return Err("failed to attach to exec: " + attach.err);
    }
    var copy := w.Call(Demux(create.id));
    if !copy.ok {
      return Err("failed to read command output: " + copy.err);
    }
    var inspect := w.Call(ExecInspect(create.id));
    if !inspect.ok {
      return Err("failed to inspect exec: " + inspect.err);
    }
    return Ok(Output(copy.stdout, copy.stderr, inspect.exitCode));
  }

  /** Text written so far, in front of what the rest of the run writes. */
  function Prepend(s: string, r: Result<string>): Result<string>
  {
    match r
    case Ok(t) => Ok(s + t)
    case Err(e) => Err(e)
  }

  lemma PrependTwice(a: string, b: string, r: Result<string>)
    ensures Prepend(a, Prepend(b, r)) == Prepend(a + b, r)
  {
    if r.Ok? {
      assert a + (b + r.value) == (a + b) + r.value;
    }
  }

  /** How one command of the list runs: the calls it makes when its first
      call is call number `n`, and its outcome. */
  type Runner = (nat, string) -> Run<Result<Output>>

  /** The runner of `executeCommandWithOutput` against `target`. */
  function Runs(script: nat -> Answer, target: string): Runner
  {
    (m: nat, cmd: string) => CommandRun(script, m, target, cmd)
  }

  /** Whether the transcript loop goes on after a command's run. */
  predicate Continues(c: Run<Result<Output>>)
  {
    c.value.Ok? && c.value.value.exitCode == 0
  }

  /** The engine calls of the transcript loop over `cmds`: it stops after a
      non-zero exit code or an executor error. */
  function TranscriptCalls(run: Runner, n: nat, cmds: seq<string>): seq<Call>
    decreases |cmds|
  {
    if |cmds| == 0 then []
    else
      var c := run(n, cmds[0]);
      if Continues(c) then c.calls + TranscriptCalls(run, n + |c.calls|, cmds[1..])
      else c.calls
  }

  /** The text of the transcript loop over `cmds`, the first of which is
      preceded by a blank line when `later`; an executor error replaces the
      whole text. */
  function TranscriptText(run: Runner, n: nat, cmds: seq<string>, later: bool): Result<string>
    decreases |cmds|
  {
    if |cmds| == 0 then Ok("")
    else
      var c := run(n, cmds[0]);
      match c.value
      case Err(e) => Err(e)
      case Ok(o) =>
        var b := Block(later, cmds[0], o);
        if o.exitCode != 0 then Ok(b)
        else Prepend(b, TranscriptText(run, n + |c.calls|, cmds[1..], true))
  }

  /** The calls of the loop from command `i` on, which starts at call `n`:
      those of command `i`, which end at call `m`, then those of the rest
      if it goes on. */
  lemma CallsStep(run: Runner, n: nat, m: nat, cmds: seq<string>, i: nat,
                  calls: seq<Call>, done: seq<Call>, done': seq<Call>)
    requires i < |cmds| && calls == done + TranscriptCalls(run, n, cmds[i..])
    requires m == n + |run(n, cmds[i]).calls| && done' == done + run(n, cmds[i]).calls
    ensures Continues(run(n, cmds[i])) ==> calls == done' + TranscriptCalls(run, m, cmds[i + 1..])
    ensures !Continues(run(n, cmds[i])) ==> calls == done'
  {
    assert cmds[i..][0] == cmds[i] && cmds[i..][1..] == cmds[i + 1..];
    var c := run(n, cmds[i]);
    if Continues(c) {
      Assoc(done, c.calls, TranscriptCalls(run, m, cmds[i + 1..]));
    }
  }

  /** The text of the loop from command `i` on: the block of command `i`,
      then the rest, from call `m` on, if it goes on. */
  lemma TextStep(run: Runner, n: nat, m: nat, cmds: seq<string>, i: nat, text: Result<string>, out: string)
    requires i < |cmds| && text == Prepend(out, TranscriptText(run, n, cmds[i..], i > 0))
    requires m == n + |run(n, cmds[i]).calls|
    ensures var c := run(n, cmds[i]);
      if c.value.Err? then text == Err(c.value.msg)
      else if c.value.value.exitCode != 0 then text == Ok(out + Block(i > 0, cmds[i], c.value.value))
      else text == Prepend(out + Block(i > 0, cmds[i], c.value.value), TranscriptText(run, m, cmds[i + 1..], true))
  {
    assert cmds[i..][0] == cmds[i] && cmds[i..][1..] == cmds[i + 1..];
    var c := run(n, cmds[i]);
    if Continues(c) {
      PrependTwice(out, Block(i > 0, cmds[i], c.value.value), TranscriptText(run, m, cmds[i + 1..], true));
    }
  }

  /** One round of the transcript loop: execute command `i`, then stop
      with the loop's result or go on with the extended text. */
  method Step(w: World, target: string, ghost run: Runner, cmds: seq<string>, i: nat, out: string,
              ghost calls: seq<Call>, ghost text: Result<string>, ghost base: seq<Call>, ghost done: seq<Call>)
    returns (stop: bool, r: Result<string>, out': string, ghost done': seq<Call>)
    requires w.Valid() && i < |cmds| && run == Runs(w.script, target)
    requires w.log == base + done
    requires calls == done + TranscriptCalls(run, |w.log|, cmds[i..])
    requires text == Prepend(out, TranscriptText(run, |w.log|, cmds[i..], i > 0))
    modifies w
    ensures w.Valid() && w.log == base + done'
    ensures stop ==> calls == done' && text == r
    ensures !stop ==> calls == done' + TranscriptCalls(run, |w.log|, cmds[i + 1..])
    ensures !stop ==> text == Prepend(out', TranscriptText(run, |w.log|, cmds[i + 1..], true))
  {
    ghost var n := |w.log|;
    ghost var c := run(n, cmds[i]);
    assert c == CommandRun(w.script, n, target, cmds[i]);
    var res := ExecuteCommand(w, target, cmds[i]);
    Assoc(base, done, c.calls);
    done' := done + c.calls;
    CallsStep(run, n, |w.log|, cmds, i, calls, done, done');
    TextStep(run, n, |w.log|, cmds, i, text, out);
    if res.Err? {
      return true, Err(res.msg), out, done';
    }
    out' := out + Block(i > 0, cmds[i], res.value);
    if res.value.exitCode != 0 {
      return true, Ok(out'), out', done';
    }
    return false, Ok(""), out', done';
  }

  method Transcript(w: World, target: string, cmds: seq<string>) returns (r: Result<string>)
    requires w.Valid()
    modifies w
    ensures w.Valid()
    ensures w.log == old(w.log) + TranscriptCalls(Runs(w.script, target), |old(w.log)|, cmds)
    ensures r == TranscriptText(Runs(w.script, target), |old(w.log)|, cmds, false)
  {
    ghost var run := Runs(w.script, target);
    ghost var calls := TranscriptCalls(run, |w.log|, cmds);
    ghost var text := TranscriptText(run, |w.log|, cmds, false);
    ghost var done: seq<Call> := [];
    var out := "";
    var i := 0;
    assert cmds[0..] == cmds;
    assert Prepend("", text) == text by {
      if text.Ok? { assert "" + text.value == text.value; }
    }
    while i < |cmds|
      invariant w.Valid() && 0 <= i <= |cmds| && run == Runs(w.script, target)
      invariant w.log == old(w.log) + done
      invariant calls == done + TranscriptCalls(run, |w.log|, cmds[i..])
      invariant text == Prepend(out, TranscriptText(run, |w.log|, cmds[i..], i > 0))
      decreases |cmds| - i
    {
      var stop, res;
      stop, res, out, done := Step(w, target, run, cmds, i, out, calls, text, old(w.log), done);
      if stop {
        return res;
      }
      i := i + 1;
    }
    assert cmds[i..] == [];
    assert done + [] == done && out + "" == out;
    return Ok(out);
  }

  /** `Exec`: the container and command arguments, then the transcript;
      every answer is a plain text result. */
  function ExecRun(script: nat -> Answer, n: nat, args: Args): Run<Reply>
  {
    match NonEmptyStr(args, "container_id_or_name")
    case None => Run([], Text("container_id_or_name is required", false))
    case Some(target) =>
      match ParseCommands(args)
      case Err(e) => Run([], Text(e, false))
      case Ok(cmds) =>
        var run := Runs(script, target);
        Run(TranscriptCalls(run, n, cmds), match TranscriptText(run, n, cmds, false)
          case Ok(s) => Text(s, false)
          case Err(e) => Text("Error executing command: " + e, false))
  }
  method ExecTool(w: World, args: Args) returns (reply: Reply)
    requires w.Valid()
    modifies w
    ensures w.Valid()
    ensures w.log == old(w.log) + ExecRun(w.script, |old(w.log)|, args).calls
    ensures reply == ExecRun(w.script, |old(w.log)|, args).value
  {
    var target := NonEmptyStr(args, "container_id_or_name");
    if target.None? {
      return Text("container_id_or_name is required", false);
    }
    var commands: seq<string>;
    var v := Lookup(args, "commands");
    if v.Some? && v.value.VList? {
      var parsed := CommandList(v.value.items);
      if parsed.Err? {
        return Text(parsed.msg, false);
      }
      commands := parsed.value;
      assert commands == seq(|v.value.items|, k requires 0 <= k < |v.value.items| => v.value.items[k].s);
    } else if v.Some? && v.value.VStr? {
      commands := [v.value.s];
    } else {
      return Text("commands must be a string or an array of strings", false);
    }
    if |commands| == 0 {
      return Text("at least one command is required", false);
    }
    var t := Transcript(w, target.value, commands);
    match t
    case Ok(s) => reply := Text(s, false);
    case Err(e) => reply := Text("Error executing command: " + e, false);
  }

  /** The command lines of the execs created by `calls`, in order. */
  function Executed(calls: seq<Call>): seq<string>
  {
    if |calls| == 0 then []
    else (if calls[0].ExecCreate? && |calls[0].cmd| == 3 then [calls[0].cmd[2]] else []) + Executed(calls[1..])
  }

  lemma {:induction false} ExecutedAppend(a: seq<Call>, b: seq<Call>)
    ensures Executed(a + b) == Executed(a) + Executed(b)
    decreases |a|
  {
    if |a| == 0 {
      assert a + b == b;
    } else {
      assert (a + b)[0] == a[0] && (a + b)[1..] == a[1..] + b;
      ExecutedAppend(a[1..], b);
    }
  }

  /** Calls that create no exec contribute no command line. */
  lemma {:induction false} ExecutedNone(calls: seq<Call>)
    requires forall k :: 0 <= k < |calls| ==> !calls[k].ExecCreate?
    ensures Executed(calls) == []
    decreases |calls|
  {
    if |calls| > 0 {
      ExecutedNone(calls[1..]);
    }
  }

  /** Each `executeCommandWithOutput` creates exactly one exec, of its own
      command, and its last call fails exactly when it returns an error;
      on success that call is the inspection reporting the exit code. */
  lemma CommandCalls(script: nat -> Answer, n: nat, target: string, cmd: string)
    ensures var c := CommandRun(script, n, target, cmd);
      && 1 <= |c.calls| <= 4 && Executed(c.calls) == [cmd]
      && (c.value.Ok? <==> script(n + |c.calls| - 1).ok)
      && (c.value.Ok? ==> |c.calls| == 4 && c.value.value.exitCode == script(n + 3).exitCode)
  {
    var c := CommandRun(script, n, target, cmd);
    var tail := c.calls[1..];
    assert c.calls[0] == ExecCreate(target, ["sh", "-c", cmd], false);
    assert forall k :: 0 <= k < |tail| ==> !tail[k].ExecCreate?;
    ExecutedNone(tail);
    assert Executed(c.calls) == [cmd] + Executed(tail);
  }

  /** The run of `cmd` from call `m` creates one exec, of `cmd` itself; its
      last call is answered with an error exactly when the run fails, and
      otherwise reports the run's exit code. */
  ghost predicate FaithfulAt(script: nat -> Answer, run: Runner, m: nat, cmd: string)
  {
    var c := run(m, cmd);
    && |c.calls| >= 1 && Executed(c.calls) == [cmd]
    && (c.value.Ok? <==> script(m + |c.calls| - 1).ok)
    && (c.value.Ok? ==> c.value.value.exitCode == script(m + |c.calls| - 1).exitCode)
  }

  /** A runner that behaves like `executeCommandWithOutput` wherever it starts. */
  ghost predicate Faithful(script: nat -> Answer, run: Runner)
  {
    forall m: nat, cmd: string :: FaithfulAt(script, run, m, cmd)
  }

  lemma RunsFaithful(script: nat -> Answer, target: string)
    ensures Faithful(script, Runs(script, target))
  {
    forall m: nat, cmd: string
      ensures FaithfulAt(script, Runs(script, target), m, cmd)
    {
      CommandCalls(script, m, target, cmd);
    }
  }

  /** The execs created by `calls` ran a non-empty prefix of `cmds`. */
  predicate ExecutesPrefix(cmds: seq<string>, calls: seq<Call>)
  {
    var e := Executed(calls);
    1 <= |e| <= |cmds| && e == cmds[..|e|]
  }

  /** Calls from call number `n` on that ran fewer than all `m` commands
      ended with an engine error or a non-zero exit code. */
  predicate StoppedOnFailure(script: nat -> Answer, n: nat, m: nat, calls: seq<Call>)
  {
    |calls| > 0 && |Executed(calls)| < m ==>
      var last := script(n + |calls| - 1);
      !last.ok || last.exitCode != 0
  }

  /** Executing one command and then a prefix of the others executes a
      prefix of the whole list. */
  lemma PrefixCons(cmds: seq<string>, first: seq<Call>, rest: seq<Call>)
    requires |cmds| > 1 && Executed(first) == [cmds[0]]
    requires ExecutesPrefix(cmds[1..], rest)
    ensures ExecutesPrefix(cmds, first + rest)
  {
    ExecutedAppend(first, rest);
    var e := Executed(rest);
    assert Executed(first + rest) == [cmds[0]] + e;
    assert [cmds[0]] + cmds[1..][..|e|] == cmds[..|e| + 1];
  }

  /** Calls that go on after one command stop where their rest stops. */
  lemma FailureCons(script: nat -> Answer, n: nat, m: nat, first: seq<Call>, rest: seq<Call>)
    requires |Executed(first)| == 1 && |rest| > 0
    requires StoppedOnFailure(script, n + |first|, m, rest)
    ensures StoppedOnFailure(script, n, m + 1, first + rest)
  {
    ExecutedAppend(first, rest);
    assert n + |first + rest| - 1 == (n + |first|) + |rest| - 1;
  }

  /** The commands executed are a non-empty prefix of the list. */
  lemma {:induction false} TranscriptPrefix(script: nat -> Answer, run: Runner, n: nat, cmds: seq<string>)
    requires Faithful(script, run) && |cmds| > 0
    ensures ExecutesPrefix(cmds, TranscriptCalls(run, n, cmds))
    decreases |cmds|
  {
    var c := run(n, cmds[0]);
    assert FaithfulAt(script, run, n, cmds[0]);
    assert cmds[..1] == [cmds[0]];
    if Continues(c) && |cmds| > 1 {
      TranscriptPrefix(script, run, n + |c.calls|, cmds[1..]);
      PrefixCons(cmds, c.calls, TranscriptCalls(run, n + |c.calls|, cmds[1..]));
    } else if Continues(c) {
      assert c.calls + [] == c.calls;
    }
  }

  /** When the loop runs fewer commands than the list holds, the last
      engine answer was an error or a non-zero exit code. */
  lemma {:induction false} TranscriptStopsOnFailure(script: nat -> Answer, run: Runner, n: nat, cmds: seq<string>)
    requires Faithful(script, run) && |cmds| > 0
    ensures StoppedOnFailure(script, n, |cmds|, TranscriptCalls(run, n, cmds))
    decreases |cmds|
  {
    var c := run(n, cmds[0]);
    assert FaithfulAt(script, run, n, cmds[0]);
    if Continues(c) && |cmds| > 1 {
      var rest := TranscriptCalls(run, n + |c.calls|, cmds[1..]);
      TranscriptStopsOnFailure(script, run, n + |c.calls|, cmds[1..]);
      TranscriptPrefix(script, run, n + |c.calls|, cmds[1..]);
      FailureCons(script, n, |cmds| - 1, c.calls, rest);
    } else if Continues(c) {
      assert c.calls + [] == c.calls;
    }
  }

  /** Text `b` that starts with `head` and ends with a newline, followed by
      text `t` that is empty or ends with a newline, does too. */
  lemma ShapeCons(head: string, b: string, t: string)
    requires head <= b && |b| > 0 && b[|b| - 1] == '\n'
    requires |t| > 0 ==> t[|t| - 1] == '\n'
    ensures head <= b + t && (b + t)[|b + t| - 1] == '\n'
  {
    assert (b + t)[..|head|] == b[..|head|];
  }

  /** The header line a command's block starts with. */
  function Header(later: bool, cmd: string): string
  {
    (if later then "\n\n" else "") + "$ " + cmd + "\n"
  }

  /** Appending text that ends in a newline keeps a prefix and ends in a newline. */
  lemma Extend(head: string, p: string, q: string)
    requires head <= p && |q| > 0 && q[|q| - 1] == '\n'
    ensures head <= p + q && (p + q)[|p + q| - 1] == '\n'
  {
    assert (p + q)[..|head|] == p[..|head|];
  }

  /** A block starts with its header and ends with a newline. */
  lemma BlockShape(later: bool, cmd: string, o: Output)
    ensures var b := Block(later, cmd, o);
      Header(later, cmd) <= b && b[|b| - 1] == '\n'
  {
    var head := Header(later, cmd);
    var q1 := if o.stdout != "" then Terminated(o.stdout) else "";
    var q2 := if o.stderr != "" then "Error: " + Terminated(o.stderr) else "";
    var q3 := if o.exitCode != 0 then "Command exited with code " + Strs.IntToString(o.exitCode) + "\n" else "";
    assert Block(later, cmd, o) == head + q1 + q2 + q3;
    assert head[..|head|] == head;
    if q1 != "" { Extend(head, head, q1); } else { assert head + q1 == head; }
    if q2 != "" { Extend(head, head + q1, q2); } else { assert head + q1 + q2 == head + q1; }
    if q3 != "" { Extend(head, head + q1 + q2, q3); } else { assert head + q1 + q2 + q3 == head + q1 + q2; }
  }

  /** A text of block `b` followed by the rest `rest` keeps the shape of `b`. */
  lemma ShapeStep(head: string, b: string, rest: Result<string>, t: Result<string>)
    requires head <= b && |b| > 0 && b[|b| - 1] == '\n'
    requires rest.Ok? ==> |rest.value| == 0 || rest.value[|rest.value| - 1] == '\n'
    requires t == Prepend(b, rest)
    ensures t.Ok? ==> head <= t.value && t.value[|t.value| - 1] == '\n'
  {
    if rest.Ok? {
      ShapeCons(head, b, rest.value);
    }
  }

  /** Every transcript starts with the header of the first command and ends
      with a newline. */
  lemma {:induction false} TranscriptShape(run: Runner, n: nat, cmds: seq<string>, later: bool)
    requires |cmds| > 0
    ensures var t := TranscriptText(run, n, cmds, later);
      t.Ok? ==> Header(later, cmds[0]) <= t.value && t.value[|t.value| - 1] == '\n'
    decreases |cmds|
  {
    var c := run(n, cmds[0]);
    if c.value.Ok? {
      var o := c.value.value;
      BlockShape(later, cmds[0], o);
      if o.exitCode == 0 {
        var rest := TranscriptText(run, n + |c.calls|, cmds[1..], true);
        if |cmds| > 1 {
          TranscriptShape(run, n + |c.calls|, cmds[1..], true);
        }
        ShapeStep(Header(later, cmds[0]), Block(later, cmds[0], o), rest, TranscriptText(run, n, cmds, later));
      }
    }
  }

  /** Over the whole loop: the commands executed are a non-empty prefix of
      the list, a loop that stops early stops on an engine error or a
      non-zero exit code, and a transcript starts with the first command's
      `$ ` header. */
  lemma ExecPrefix(script: nat -> Answer, n: nat, target: string, cmds: seq<string>)
    requires |cmds| > 0
    ensures var run := Runs(script, target);
      var calls := TranscriptCalls(run, n, cmds);
      var t := TranscriptText(run, n, cmds, false);
      && ExecutesPrefix(cmds, calls) && StoppedOnFailure(script, n, |cmds|, calls)
      && (t.Ok? ==> "$ " + cmds[0] + "\n" <= t.value)
  {
    RunsFaithful(script, target);
    TranscriptPrefix(script, Runs(script, target), n, cmds);
    TranscriptStopsOnFailure(script, Runs(script, target), n, cmds);
    TranscriptShape(Runs(script, target), n, cmds, false);
    assert Header(false, cmds[0]) == "$ " + cmds[0] + "\n";
  }

  /** Argument problems are answered without any engine call, and every
      answer of `exec` is a plain (not error-flagged) text result. */
  lemma ExecReplies(script: nat -> Answer, n: nat, args: Args)
    ensures var r := ExecRun(script, n, args);
      && r.value.Text? && !r.value.isError
      && (NonEmptyStr(args, "container_id_or_name").None? || ParseCommands(args).Err? <==> r.calls == [])
  {
    var target := NonEmptyStr(args, "container_id_or_name");
    if target.Some? && ParseCommands(args).Ok? {
      var cmds := ParseCommands(args).value;
      assert |cmds| > 0;
      var run := Runs(script, target.value);
      CommandCalls(script, n, target.value, cmds[0]);
      var c := run(n, cmds[0]);
      var t := TranscriptCalls(run, n, cmds);
      assert t[..|c.calls|] == c.calls;
    }
  }
}
