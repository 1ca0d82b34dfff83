/** What the two `run_project` implementations share: probing a project
    directory for the first manifest file that exists, and joining an
    install step and a command into one `/bin/sh -c` line. */
module Projects {
  import opened Wrappers
  import Strs
  import Paths
  import opened Engine

  /** The stat calls for the first `count` of `files` under `dir`, in order. */
  function StatCalls(dir: string, files: seq<string>, count: nat): (calls: seq<Call>)
    requires count <= |files|
    ensures |calls| == count
  {
    if count == 0 then [] else StatCalls(dir, files, count - 1) + [Stat(Paths.Join(dir, files[count - 1]))]
  }

  /** Stat call `k` is the stat of file `k`. */
  lemma {:induction false} StatCallsAt(dir: string, files: seq<string>, count: nat)
    requires count <= |files|
    ensures forall k :: 0 <= k < count ==> StatCalls(dir, files, count)[k] == Stat(Paths.Join(dir, files[k]))
  {
    if count > 0 {
      StatCallsAt(dir, files, count - 1);
    }
  }

  /** The stat of call `n + j` failed. */
  predicate FailsAt(script: nat -> Answer, n: nat, j: nat)
  {
    !script(n + j).ok
  }

  /** The first `j` in `[i, count)` whose stat (call `n + j`) succeeded,
      or `count` when there is none. */
  function FirstFound(script: nat -> Answer, n: nat, i: nat, count: nat): (k: nat)
    requires i <= count
    ensures i <= k <= count
    ensures forall j :: i <= j < k ==> FailsAt(script, n, j)
    ensures k < count ==> !FailsAt(script, n, k)
    decreases count - i
  {
    if i == count then count
    else if !FailsAt(script, n, i) then i
    else FirstFound(script, n, i + 1, count)
  }

  /** The manifest probe: stat each file under `dir` in list order and stop
      at the first one whose stat succeeds. */
  function ProbeRun(script: nat -> Answer, n: nat, dir: string, files: seq<string>): Run<Option<string>>
  {
    var k := FirstFound(script, n, 0, |files|);
    if k < |files| then Run(StatCalls(dir, files, k + 1), Some(files[k]))
    else Run(StatCalls(dir, files, k), None)
  }

  method Probe(w: World, dir: string, files: seq<string>) returns (dep: Option<string>)
    requires w.Valid()
    modifies w
    ensures w.Valid()
    ensures w.log == old(w.log) + ProbeRun(w.script, |old(w.log)|, dir, files).calls
    ensures dep == ProbeRun(w.script, |old(w.log)|, dir, files).value
  {
    ghost var n := |w.log|;
    ghost var k := FirstFound(w.script, n, 0, |files|);
    var i := 0;
    while i < |files|
      invariant 0 <= i <= k
      invariant w.Valid()
      invariant w.log == old(w.log) + StatCalls(dir, files, i)
    {
      var a := w.Call(Stat(Paths.Join(dir, files[i])));
      Assoc(old(w.log), StatCalls(dir, files, i), [Stat(Paths.Join(dir, files[i]))]);
      if a.ok {
        assert !FailsAt(w.script, n, i);
        assert i == k;
        assert ProbeRun(w.script, n, dir, files) == Run(StatCalls(dir, files, i + 1), Some(files[i]));
        return Some(files[i]);
      }
      assert FailsAt(w.script, n, i);
      i := i + 1;
    }
    assert ProbeRun(w.script, n, dir, files) == Run(StatCalls(dir, files, |files|), None);
    return None;
  }

  /** The probe reports the first file, in list order, whose stat
      succeeded: every file before it was stat-ed and failed, and no file
      after it was looked at.  It reports none exactly when every stat
      failed. */
  lemma ProbeFirst(script: nat -> Answer, n: nat, dir: string, files: seq<string>)
    ensures var r := ProbeRun(script, n, dir, files);
      && |r.calls| <= |files|
      && (forall k :: 0 <= k < |r.calls| ==> r.calls[k] == Stat(Paths.Join(dir, files[k])))
      && (forall j :: 0 <= j < |r.calls| - 1 ==> FailsAt(script, n, j))
      && (r.value.Some? ==> |r.calls| >= 1 && r.value.value == files[|r.calls| - 1] && !FailsAt(script, n, |r.calls| - 1))
      && (r.value.None? <==> forall j :: 0 <= j < |files| ==> FailsAt(script, n, j))
      && (r.value.None? ==> |r.calls| == |files|)
  {
    var k := FirstFound(script, n, 0, |files|);
    StatCallsAt(dir, files, if k < |files| then k + 1 else k);
  }

  /** The probe only stats files. */
  lemma ProbeOnlyStats(script: nat -> Answer, n: nat, dir: string, files: seq<string>)
    ensures forall k :: 0 <= k < |ProbeRun(script, n, dir, files).calls| ==> ProbeRun(script, n, dir, files).calls[k].Stat?
  {
    var k := FirstFound(script, n, 0, |files|);
    StatCallsAt(dir, files, if k < |files| then k + 1 else k);
  }

  /** The shell invocation `/bin/sh -c "<install> && <command>"`. */
  function ShellLine(install: string, cmd: seq<string>): (c: seq<string>)
    ensures |c| == 3 && c[0] == "/bin/sh" && c[1] == "-c"
  {
    ["/bin/sh", "-c", install + " && " + Strs.Join(cmd, " ")]
  }

  /** The shell splits the line into the install line's own words, `&&`,
      and the command's words: no command word is lost or merged. */
  lemma ShellSeesCommand(install: string, cmd: seq<string>)
    requires Strs.Words(cmd)
    ensures Strs.Fields(ShellLine(install, cmd)[2]) == Strs.Fields(install) + ["&&"] + cmd
  {
    var rest := Strs.Join(cmd, " ");
    var tail := "&&" + " " + rest;
    assert ShellLine(install, cmd)[2] == install + " " + tail;
    Strs.FieldsAppend(install, tail);
    Strs.FieldsAppend("&&", rest);
    AmpersandsOneField();
    Strs.FieldsJoin(cmd);
  }

  /** `&&` is one field. */
  lemma AmpersandsOneField()
    ensures Strs.Fields("&&") == ["&&"]
  {
    Strs.SpaceAtAppend("&&", "");
    assert "&&" + "" == "&&";
    assert Strs.Fields("&&") == ["&&"] + Strs.Fields("&&"[2..]);
  }
}
