/**
 * The installer driver of `uv_install_package`: extraction of `--no-deps`
 * from the extra arguments, assembly of the `uv pip compile`, `uv pip sync`
 * and `uv pip install` command lines, and running them in order.
 */
module Installer {
  import opened Wrappers

  type Cmd = seq<string>

  datatype InstallMode = NoDeps | MinDeps

  const NoDepsFlag := "--no-deps"

  /**
   * The inputs of one `uv_install_package` call that shape the command lines:
   * `pythonVersion` is the caller's argument (possibly None), `isDir` is
   * `os.path.isdir(source_name)`, `targetPath` the scratch directory and
   * `configExtraArgs` is `config.pip_extra_args`.
   */
  datatype InstallRequest = InstallRequest(
    uvExe: string,
    sourceName: string,
    pythonVersion: Option<string>,
    mode: InstallMode,
    isDir: bool,
    targetPath: string,
    extraArgs: seq<string>,
    configExtraArgs: seq<string>)

  /** The commands of one run: compile and sync only for a project directory, then install. */
  datatype InstallSteps = InstallSteps(compile: Option<Cmd>, sync: Option<Cmd>, install: Cmd)

  /** How many times `x` occurs in `s`. */
  function Count(s: seq<string>, x: string): nat
  {
    if s == [] then 0 else (if s[0] == x then 1 else 0) + Count(s[1..], x)
  }

  lemma {:induction false} CountAppend(a: seq<string>, b: seq<string>, x: string)
    ensures Count(a + b, x) == Count(a, x) + Count(b, x)
  {
    if a == [] {
      assert a + b == b;
    } else {
      assert (a + b)[1..] == a[1..] + b;
      CountAppend(a[1..], b, x);
    }
  }

  lemma {:induction false} CountZero(s: seq<string>, x: string)
    ensures Count(s, x) == 0 <==> x !in s
  {
    if s != [] {
      CountZero(s[1..], x);
    }
  }

  /** `list.remove(x)`: drops the first occurrence of `x`; a list without `x` is left as it is. */
  function RemoveFirst(s: seq<string>, x: string): (r: seq<string>)
    ensures x !in s ==> r == s
    ensures x in s ==> |r| == |s| - 1
  {
    if s == [] then []
    else if s[0] == x then s[1..]
    else [s[0]] + RemoveFirst(s[1..], x)
  }

  /** The position of the first occurrence of `x` in `s`. */
  function IndexOf(s: seq<string>, x: string): (i: nat)
    requires x in s
    ensures i < |s| && s[i] == x && x !in s[..i]
  {
    if s[0] == x then 0
    else
      var j := IndexOf(s[1..], x);
      assert s[..j + 1] == [s[0]] + s[1..][..j];
      j + 1
  }

  /** `RemoveFirst` takes out exactly the first occurrence: the elements before it and after it stay, in order. */
  lemma {:induction false} RemoveFirstSplits(s: seq<string>, x: string)
    requires x in s
    ensures RemoveFirst(s, x) == s[..IndexOf(s, x)] + s[IndexOf(s, x) + 1..]
  {
    if s[0] != x {
      RemoveFirstSplits(s[1..], x);
      var j := IndexOf(s[1..], x);
      assert s[..j + 1] == [s[0]] + s[1..][..j];
      assert s[j + 2..] == s[1..][j + 1..];
    }
  }

  /** Removing one occurrence lowers the count by one, unless there was none. */
  lemma {:induction false} RemoveFirstCount(s: seq<string>, x: string)
    ensures Count(RemoveFirst(s, x), x) == if Count(s, x) == 0 then 0 else Count(s, x) - 1
  {
    if s != [] && s[0] != x {
      RemoveFirstCount(s[1..], x);
      assert RemoveFirst(s, x) == [s[0]] + RemoveFirst(s[1..], x);
      CountAppend([s[0]], RemoveFirst(s[1..], x), x);
    }
  }

  /** `opt` is the option `name`, or `name=<value>`. */
  predicate OptionMatches(opt: string, name: string)
  {
    opt == name || (|name + "="| <= |opt| && opt[..|name + "="|] == name + "=")
  }

  /** `_option_present(opts, *names)`. */
  function OptionPresent(opts: seq<string>, names: seq<string>): (r: bool)
    ensures r <==> exists i, j :: 0 <= i < |opts| && 0 <= j < |names| && OptionMatches(opts[i], names[j])
  {
    if opts == [] then false
    else if AnyName(opts[0], names) then true
    else
      var r := OptionPresent(opts[1..], names);
      assert r ==> exists i, j :: 0 <= i < |opts| && 0 <= j < |names| && OptionMatches(opts[i], names[j]) by {
        if r {
          var i, j :| 0 <= i < |opts[1..]| && 0 <= j < |names| && OptionMatches(opts[1..][i], names[j]);
          assert OptionMatches(opts[i + 1], names[j]);
        }
      }
      r
  }

  /** The inner loop of `_option_present`: `opt` matches one of `names`. */
  function AnyName(opt: string, names: seq<string>): (r: bool)
    ensures r <==> exists j :: 0 <= j < |names| && OptionMatches(opt, names[j])
  {
    if names == [] then false
    else if OptionMatches(opt, names[0]) then true
    else
      var r := AnyName(opt, names[1..]);
      assert r ==> exists j :: 0 <= j < |names| && OptionMatches(opt, names[j]) by {
        if r {
          var j :| 0 <= j < |names[1..]| && OptionMatches(opt, names[1..][j]);
          assert names[j + 1] == names[1..][j];
        }
      }
      r
  }

  const TargetOptionNames := ["-t", "--target"]

  /**
   * `extra_args or config.pip_extra_args or []`, a None list read as []: the
   * caller's list wins whenever it is non-empty, the configured one is used
   * otherwise, and the result is empty only when both are.
   */
  function EffectiveExtraArgs(req: InstallRequest): (args: seq<string>)
    ensures req.extraArgs != [] ==> args == req.extraArgs
    ensures req.extraArgs == [] ==> args == req.configExtraArgs
    ensures args == [] <==> req.extraArgs == [] && req.configExtraArgs == []
  {
    if req.extraArgs != [] then req.extraArgs else req.configExtraArgs
  }

  /** The caller asked for `--no-deps` among the extra arguments (the `no_deps` flag). */
  predicate NoDepsExtracted(req: InstallRequest)
  {
    NoDepsFlag in EffectiveExtraArgs(req)
  }

  /** The extra arguments after the first `--no-deps` is taken out. */
  function ExtraArgs(req: InstallRequest): seq<string>
  {
    RemoveFirst(EffectiveExtraArgs(req), NoDepsFlag)
  }

  /** `f"--python-version={python_version}"`, where a None version prints as "None". */
  function PythonVersionOption(req: InstallRequest): string
  {
    "--python-version=" + match req.pythonVersion { case Some(v) => v case None => "None" }
  }

  function LockFile(req: InstallRequest): string { req.targetPath + "/uv.lock" }

  function InstallPrefix(req: InstallRequest): Cmd
  {
    [req.uvExe, "pip", "install", "--prerelease=explicit", "--index-strategy=unsafe-best-match", "--system",
     PythonVersionOption(req), "--python-preference=system", "--no-python-downloads", "--compile"]
  }

  function CompilePrefix(req: InstallRequest): Cmd
  {
    [req.uvExe, "pip", "compile", "pyproject.toml", "-o", LockFile(req), "--upgrade", "--prerelease=explicit",
     "--emit-index-url", "--index-strategy=unsafe-best-match", "--system", PythonVersionOption(req),
     "--python-preference=system", "--no-python-downloads"]
  }

  function SyncPrefix(req: InstallRequest): Cmd
  {
    [req.uvExe, "pip", "sync", "--index-strategy=unsafe-best-match", "--system", PythonVersionOption(req),
     "--python-preference=system", "--no-python-downloads", "--compile", "--target=" + req.targetPath]
  }

  /** The mode-driven `--no-deps`, added only when the extra arguments do not still carry one. */
  function ModeFlags(req: InstallRequest): Cmd
  {
    if req.mode == NoDeps && NoDepsFlag !in ExtraArgs(req) then [NoDepsFlag] else []
  }

  /** The lock file as an override, for a project directory. */
  function OverrideFlags(req: InstallRequest): Cmd
  {
    if req.isDir then ["--override=" + LockFile(req)] else []
  }

  /** The driver's own `--target`, unless the caller supplied `-t`/`--target`. */
  function TargetFlags(req: InstallRequest): Cmd
  {
    if OptionPresent(ExtraArgs(req), TargetOptionNames) then [] else ["--target=" + req.targetPath]
  }

  /** The install command, section by section: prefix, override, mode, target, extra arguments, source. */
  function InstallCommand(req: InstallRequest): Cmd
  {
    InstallPrefix(req) + OverrideFlags(req) + ModeFlags(req) + TargetFlags(req) + ExtraArgs(req) + [req.sourceName]
  }

  function CompileCommand(req: InstallRequest): Cmd
  {
    CompilePrefix(req) + ModeFlags(req) + ExtraArgs(req)
  }

  function SyncCommand(req: InstallRequest): Cmd
  {
    SyncPrefix(req) + ExtraArgs(req) + [LockFile(req)]
  }

  /** The commands the driver runs for `req`. */
  function Steps(req: InstallRequest): InstallSteps
  {
    InstallSteps(
      if req.isDir then Some(CompileCommand(req)) else None,
      if req.isDir && !NoDepsExtracted(req) then Some(SyncCommand(req)) else None,
      InstallCommand(req))
  }

  /** The argument-list construction of `uv_install_package`, appending step by step. */
  method AssembleCommands(req: InstallRequest) returns (steps: InstallSteps)
    ensures steps == Steps(req)
  {
    var extraArgs := EffectiveExtraArgs(req);
    var noDeps := NoDepsFlag in extraArgs;
    extraArgs := RemoveFirst(extraArgs, NoDepsFlag);

    var installCmd := InstallPrefix(req);
    var compile: Option<Cmd> := None;
    var sync: Option<Cmd> := None;

    if req.isDir {
      compile, sync := AssembleLockCommands(req, extraArgs, noDeps);
      installCmd := installCmd + ["--override=" + LockFile(req)];
    }
    assert installCmd == InstallPrefix(req) + OverrideFlags(req);

    if req.mode == NoDeps && NoDepsFlag !in extraArgs {
      installCmd := installCmd + [NoDepsFlag];
    }
    assert installCmd == InstallPrefix(req) + OverrideFlags(req) + ModeFlags(req);
    if !OptionPresent(extraArgs, TargetOptionNames) {
      installCmd := installCmd + ["--target=" + req.targetPath];
    }
    assert installCmd == InstallPrefix(req) + OverrideFlags(req) + ModeFlags(req) + TargetFlags(req);
    installCmd := installCmd + extraArgs;
    installCmd := installCmd + [req.sourceName];
    steps := InstallSteps(compile, sync, installCmd);
  }

  /** The `uv pip compile` and `uv pip sync` lines of a project directory, sync only without the caller's `--no-deps`. */
  method AssembleLockCommands(req: InstallRequest, extraArgs: seq<string>, noDeps: bool)
    returns (compile: Option<Cmd>, sync: Option<Cmd>)
    requires extraArgs == ExtraArgs(req) && noDeps == NoDepsExtracted(req)
    ensures compile == Some(CompileCommand(req))
    ensures sync == if noDeps then None else Some(SyncCommand(req))
  {
    var compileCmd := CompilePrefix(req);
    var syncCmd := SyncPrefix(req);
    if req.mode == NoDeps && NoDepsFlag !in extraArgs {
      compileCmd := compileCmd + [NoDepsFlag];
    }
    assert compileCmd == CompilePrefix(req) + ModeFlags(req);
    compileCmd := compileCmd + extraArgs;
    syncCmd := syncCmd + extraArgs;
    compile := Some(compileCmd);
    syncCmd := syncCmd + [LockFile(req)];
    sync := None;
    if !noDeps {
      sync := Some(syncCmd);
    }
  }

  /**
   * Compile runs exactly for a project directory, and sync only when the
   * caller did not pass `--no-deps`; the install command starts with the fixed
   * prefix, uses the lock file as override for a project directory, and ends
   * with the extra arguments followed by the source name.
   */
  lemma StepsLayout(req: InstallRequest)
    ensures Steps(req).compile.Some? <==> req.isDir
    ensures Steps(req).sync.Some? <==> req.isDir && NoDepsFlag !in EffectiveExtraArgs(req)
    ensures Steps(req).install == InstallCommand(req)
    ensures req.isDir ==> "--override=" + LockFile(req) in InstallCommand(req)
    ensures InstallCommand(req)[..|InstallPrefix(req)|] == InstallPrefix(req)
    ensures InstallCommand(req)[|InstallCommand(req)| - 1 - |ExtraArgs(req)|..] == ExtraArgs(req) + [req.sourceName]
  {
    var cmd := InstallCommand(req);
    var head := InstallPrefix(req) + OverrideFlags(req) + ModeFlags(req) + TargetFlags(req);
    assert cmd == head + (ExtraArgs(req) + [req.sourceName]);
    if req.isDir {
      assert cmd[|InstallPrefix(req)|] == "--override=" + LockFile(req);
    }
  }

  /** No fixed word or generated option of the install command is `--no-deps`. */
  lemma InstallFlagsNotNoDeps(req: InstallRequest)
    ensures req.uvExe != NoDepsFlag ==> Count(InstallPrefix(req), NoDepsFlag) == 0
    ensures Count(OverrideFlags(req), NoDepsFlag) == 0
    ensures Count(TargetFlags(req), NoDepsFlag) == 0
  {
    var prefix := InstallPrefix(req);
    if req.uvExe != NoDepsFlag {
      assert NoDepsFlag !in prefix by {
        assert |PythonVersionOption(req)| >= 17;
      }
      CountZero(prefix, NoDepsFlag);
    }
    if req.isDir {
      assert |"--override=" + LockFile(req)| >= 11;
    }
    if !OptionPresent(ExtraArgs(req), TargetOptionNames) {
      var t := "--target=" + req.targetPath;
      assert t[2] == 't';
      assert Count(TargetFlags(req), NoDepsFlag) == Count([t], NoDepsFlag);
    }
  }

  /**
   * How often the install command carries `--no-deps`: the first occurrence in
   * the extra arguments is always taken out, and mode `no_deps` adds one only
   * if none is left. So in mode `no_deps` it occurs exactly once when the
   * caller passed it at most twice, and in mode `min_deps` a single
   * `--no-deps` from the caller does not reach the install command.
   */
  lemma InstallNoDepsCount(req: InstallRequest)
    requires req.uvExe != NoDepsFlag && req.sourceName != NoDepsFlag
    ensures var c := Count(EffectiveExtraArgs(req), NoDepsFlag);
            Count(InstallCommand(req), NoDepsFlag) ==
              if req.mode == NoDeps then (if c <= 2 then 1 else c - 1) else (if c == 0 then 0 else c - 1)
  {
    InstallFlagsNotNoDeps(req);
    RemoveFirstCount(EffectiveExtraArgs(req), NoDepsFlag);
    CountZero(ExtraArgs(req), NoDepsFlag);
    var a, b, c, d, e := InstallPrefix(req), OverrideFlags(req), ModeFlags(req), TargetFlags(req), ExtraArgs(req);
    CountAppend(a, b, NoDepsFlag);
    CountAppend(a + b, c, NoDepsFlag);
    CountAppend(a + b + c, d, NoDepsFlag);
    CountAppend(a + b + c + d, e, NoDepsFlag);
    CountAppend(a + b + c + d + e, [req.sourceName], NoDepsFlag);
  }

  /** In mode `no_deps`, with `--no-deps` given at most twice by the caller, the install command has it exactly once. */
  lemma NoDepsModeFlagOnce(req: InstallRequest)
    requires req.mode == NoDeps && req.uvExe != NoDepsFlag && req.sourceName != NoDepsFlag
    requires Count(EffectiveExtraArgs(req), NoDepsFlag) <= 2
    ensures Count(InstallCommand(req), NoDepsFlag) == 1
  {
    InstallNoDepsCount(req);
  }

  /**
   * The install command always carries a target option: the caller's `-t` or
   * `--target` when present, otherwise the driver's own `--target=<scratch dir>`.
   */
  lemma InstallAlwaysTargets(req: InstallRequest)
    ensures OptionPresent(InstallCommand(req), TargetOptionNames)
    ensures !OptionPresent(ExtraArgs(req), TargetOptionNames) ==> "--target=" + req.targetPath in InstallCommand(req)
  {
    var cmd := InstallCommand(req);
    var head := InstallPrefix(req) + OverrideFlags(req) + ModeFlags(req);
    var args := ExtraArgs(req);
    if OptionPresent(args, TargetOptionNames) {
      var i, j :| 0 <= i < |args| && 0 <= j < |TargetOptionNames| && OptionMatches(args[i], TargetOptionNames[j]);
      assert cmd[|head| + |TargetFlags(req)| + i] == args[i];
    } else {
      var t := "--target=" + req.targetPath;
      assert cmd[|head|] == t;
      assert OptionMatches(t, TargetOptionNames[1]);
    }
  }

  /**
   * The driver adds its own `--target=<scratch>` exactly when the caller gave
   * no `-t`/`--target`: the install command carries that option once more
   * than the extra arguments do when the caller gave none, and as often as
   * they do otherwise.
   */
  lemma TargetCount(req: InstallRequest)
    requires req.uvExe != "--target=" + req.targetPath && req.sourceName != "--target=" + req.targetPath
    ensures var t := "--target=" + req.targetPath;
            Count(InstallCommand(req), t) ==
              Count(ExtraArgs(req), t) + if OptionPresent(ExtraArgs(req), TargetOptionNames) then 0 else 1
  {
    var t := "--target=" + req.targetPath;
    var head, d, e := InstallPrefix(req) + OverrideFlags(req) + ModeFlags(req), TargetFlags(req), ExtraArgs(req);
    TargetNotInHead(req);
    assert Count(d, t) == if OptionPresent(e, TargetOptionNames) then 0 else 1;
    CountAppend(head, d, t);
    CountAppend(head + d, e, t);
    CountAppend(head + d + e, [req.sourceName], t);
    assert InstallCommand(req) == head + d + e + [req.sourceName];
  }

  /** The words before the target option never are the driver's `--target=<scratch>`. */
  lemma TargetNotInHead(req: InstallRequest)
    requires req.uvExe != "--target=" + req.targetPath
    ensures Count(InstallPrefix(req) + OverrideFlags(req) + ModeFlags(req), "--target=" + req.targetPath) == 0
  {
    var t := "--target=" + req.targetPath;
    assert t[2] == 't';
    var pv := PythonVersionOption(req);
    assert pv[2] == 'p';
    var fixed1, fixed2 := ["pip", "install", "--prerelease=explicit", "--index-strategy=unsafe-best-match", "--system"],
                          ["--python-preference=system", "--no-python-downloads", "--compile"];
    FixedWordsNotTarget(t, fixed1, fixed2);
    assert InstallPrefix(req) == [req.uvExe] + fixed1 + [pv] + fixed2;
    assert t !in InstallPrefix(req);
    assert t !in OverrideFlags(req) + ModeFlags(req) by {
      assert forall w | w in OverrideFlags(req) + ModeFlags(req) :: w[2] == 'o' || w == NoDepsFlag;
    }
    var head := InstallPrefix(req) + OverrideFlags(req) + ModeFlags(req);
    assert head == InstallPrefix(req) + (OverrideFlags(req) + ModeFlags(req));
    CountZero(head, t);
  }

  /** The fixed words of the install prefix differ from any `--target=...` option in their third character. */
  lemma FixedWordsNotTarget(t: string, fixed1: seq<string>, fixed2: seq<string>)
    requires |t| > 2 && t[2] == 't'
    requires fixed1 == ["pip", "install", "--prerelease=explicit", "--index-strategy=unsafe-best-match", "--system"]
    requires fixed2 == ["--python-preference=system", "--no-python-downloads", "--compile"]
    ensures t !in fixed1 && t !in fixed2
  {
    assert forall w | w in fixed1 + fixed2 :: w[2] != 't';
  }

  /** The commands in the order `uv_install_package` runs them: compile, sync, install. */
  function RunOrder(steps: InstallSteps): (cmds: seq<Cmd>)
    ensures |cmds| >= 1 && cmds[|cmds| - 1] == steps.install
    ensures steps.compile.Some? ==> cmds[0] == steps.compile.value
    ensures |cmds| == 1 + (if steps.compile.Some? then 1 else 0) + (if steps.sync.Some? then 1 else 0)
    ensures steps.sync.Some? ==> cmds[|cmds| - 2] == steps.sync.value
  {
    (if steps.compile.Some? then [steps.compile.value] else [])
    + (if steps.sync.Some? then [steps.sync.value] else [])
    + [steps.install]
  }

  /**
   * `_cmd` on each command in turn, `returnCode` standing for the process
   * exit status: the result is the command whose nonzero status raised
   * BuildError, or None when all of them succeeded.
   */
  function RunAll(cmds: seq<Cmd>, returnCode: Cmd -> int): (failed: Option<Cmd>)
    ensures failed.None? <==> forall i :: 0 <= i < |cmds| ==> returnCode(cmds[i]) == 0
    ensures failed.Some? ==>
              exists i :: && 0 <= i < |cmds| && cmds[i] == failed.value && returnCode(cmds[i]) != 0
                          && forall j :: 0 <= j < i ==> returnCode(cmds[j]) == 0
  {
    if cmds == [] then None
    else if returnCode(cmds[0]) != 0 then Some(cmds[0])
    else
      var r := RunAll(cmds[1..], returnCode);
      assert r.Some? ==> exists i :: && 0 <= i < |cmds| && cmds[i] == r.value && returnCode(cmds[i]) != 0
                                    && forall j :: 0 <= j < i ==> returnCode(cmds[j]) == 0 by {
        if r.Some? {
          var i :| && 0 <= i < |cmds[1..]| && cmds[1..][i] == r.value && returnCode(cmds[1..][i]) != 0
                   && forall j :: 0 <= j < i ==> returnCode(cmds[1..][j]) == 0;
          assert cmds[i + 1] == cmds[1..][i];
          assert forall j :: 1 <= j < i + 1 ==> cmds[j] == cmds[1..][j - 1];
        }
      }
      assert r.None? ==> forall i :: 0 <= i < |cmds| ==> returnCode(cmds[i]) == 0 by {
        if r.None? {
          assert forall i :: 1 <= i < |cmds| ==> cmds[i] == cmds[1..][i - 1];
        }
      }
      r
  }

  /** The run stops at the first of compile, sync and install that exits with a nonzero status. */
  lemma RunStepsInOrder(steps: InstallSteps, returnCode: Cmd -> int)
    ensures RunAll(RunOrder(steps), returnCode) ==
              if steps.compile.Some? && returnCode(steps.compile.value) != 0 then Some(steps.compile.value)
              else if steps.sync.Some? && returnCode(steps.sync.value) != 0 then Some(steps.sync.value)
              else if returnCode(steps.install) != 0 then Some(steps.install)
              else None
  {
    var cmds := RunOrder(steps);
    var rest := (if steps.sync.Some? then [steps.sync.value] else []) + [steps.install];
    if steps.compile.Some? {
      assert cmds == [steps.compile.value] + rest;
      assert cmds[1..] == rest;
    } else {
      assert cmds == rest;
    }
    if steps.sync.Some? {
      assert rest[1..] == [steps.install];
    }
    assert RunAll([steps.install], returnCode) == if returnCode(steps.install) != 0 then Some(steps.install) else None;
  }
}
