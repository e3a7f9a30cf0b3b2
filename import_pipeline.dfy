/**
 * The import loop of `uv_install_package`: run the uv commands, then for each
 * installed distribution build its file mapping and package draft, commit it
 * through the package maker, and collect the installed and skipped variants.
 */
module ImportPipeline {
  import opened Wrappers
  import opened Remap
  import opened FileMappings
  import opened Installer
  import opened PackageDrafts

  /** A committed package variant, as the package maker reports it. */
  datatype Variant = Variant(qualifiedName: string, uri: string, subpath: string)

  /** An installed distribution as read back from the scratch directory. */
  datatype Distribution = Distribution(
    name: string,
    version: string,
    nameAndVersion: string,
    files: seq<Path>,
    metadata: Metadata)

  /** `pkg_maker.installed_variants` and `pkg_maker.skipped_variants` after the `with` block; either may be None. */
  datatype CommitOutcome = CommitOutcome(installedVariants: Option<seq<Variant>>, skippedVariants: Option<seq<Variant>>)

  /**
   * The collaborators outside this model: the remap configuration, whether a
   * file exists under the scratch directory, `get_rez_requirements`,
   * `pip_to_rez_package_name`, `pip_to_rez_version`, and `make_package`.
   */
  datatype Collaborators = Collaborators(
    remap: RemapConfig,
    onDisk: Path -> bool,
    translate: Distribution -> Translation,
    rezName: string -> string,
    rezVersion: string -> string,
    commit: PackageDraft -> CommitOutcome)

  datatype ImportError = BuildError(command: Cmd) | Unmapped(cause: MappingError)

  function DistIdOf(d: Distribution): DistId { DistId(d.name, d.version) }

  /** The draft of one distribution, its tools taken from the mapping's destinations. */
  function DraftFor(env: Collaborators, d: Distribution, m: FileMapping): PackageDraft
    requires Valid(m)
  {
    DraftOf(env.rezName(d.name), env.rezVersion(d.version), d.nameAndVersion, d.metadata, env.translate(d),
            ToolsOf(Values(m)))
  }

  /** The two result lists, and the error that stopped the loop if one did. */
  datatype ImportState = ImportState(installed: seq<Variant>, skipped: seq<Variant>, error: Option<MappingError>)

  /** What one distribution yields: the maker's outcome for its draft, or the error of its file mapping. */
  function DistOutcome(env: Collaborators, d: Distribution): Result<CommitOutcome, MappingError>
  {
    match MappingOf(env.remap, DistIdOf(d), d.files, env.onDisk)
    case Failure(e) => Failure(e)
    case Success(m) => Success(env.commit(DraftFor(env, d, m)))
  }

  /** The result lists after one more distribution. */
  function Append(s: ImportState, o: Result<CommitOutcome, MappingError>): ImportState
  {
    match o
    case Failure(e) => ImportState(s.installed, s.skipped, Some(e))
    case Success(c) =>
      ImportState(s.installed + OrEmpty(c.installedVariants), s.skipped + OrEmpty(c.skippedVariants), None)
  }

  /** The result of processing `dists` in order; the first unmapped path stops the loop. */
  function Imported(env: Collaborators, dists: seq<Distribution>): ImportState
    decreases |dists|
  {
    if dists == [] then ImportState([], [], None)
    else
      var n := |dists| - 1;
      var s := Imported(env, dists[..n]);
      if s.error.Some? then s else Append(s, DistOutcome(env, dists[n]))
  }

  /** One iteration of the distribution loop up to the commit: mapping, tools list, draft, `make_package`. */
  method ImportDistribution(env: Collaborators, d: Distribution) returns (o: Result<CommitOutcome, MappingError>)
    ensures o == DistOutcome(env, d)
  {
    var mapping := BuildFileMapping(env.remap, DistIdOf(d), d.files, env.onDisk);
    if mapping.Failure? {
      return Failure(mapping.error);
    }
    var srcDstLut := mapping.value;
    var tools := CollectTools(Values(srcDstLut));
    var draft := DraftOf(env.rezName(d.name), env.rezVersion(d.version), d.nameAndVersion, d.metadata,
                         env.translate(d), tools);
    return Success(env.commit(draft));
  }

  /** The local result lists of `uv_install_package` that `log_append_pkg_variants` appends to. */
  class ImportRun {
    var installedVariants: seq<Variant>
    var skippedVariants: seq<Variant>

    constructor ()
      ensures installedVariants == [] && skippedVariants == []
    {
      installedVariants := [];
      skippedVariants := [];
    }

    /** `log_append_pkg_variants`: appends the maker's installed and skipped variants, in order. */
    method LogAppendPkgVariants(outcome: CommitOutcome)
      modifies this
      ensures installedVariants == old(installedVariants) + OrEmpty(outcome.installedVariants)
      ensures skippedVariants == old(skippedVariants) + OrEmpty(outcome.skippedVariants)
    {
      var pkgInstalled := OrEmpty(outcome.installedVariants);
      for i := 0 to |pkgInstalled|
        invariant installedVariants == old(installedVariants) + pkgInstalled[..i]
        invariant skippedVariants == old(skippedVariants)
      {
        installedVariants := installedVariants + [pkgInstalled[i]];
      }
      var pkgSkipped := OrEmpty(outcome.skippedVariants);
      for i := 0 to |pkgSkipped|
        invariant installedVariants == old(installedVariants) + pkgInstalled
        invariant skippedVariants == old(skippedVariants) + pkgSkipped[..i]
      {
        skippedVariants := skippedVariants + [pkgSkipped[i]];
      }
    }

    /** The loop over the distributions: map the files, build the tools list and the draft, commit, append. */
    method ImportAll(env: Collaborators, dists: seq<Distribution>) returns (err: Option<MappingError>)
      modifies this
      ensures installedVariants == old(installedVariants) + Imported(env, dists).installed
      ensures skippedVariants == old(skippedVariants) + Imported(env, dists).skipped
      ensures err == Imported(env, dists).error
    {
      var i := 0;
      assert dists[..0] == [];
      while i < |dists|
        invariant 0 <= i <= |dists|
        invariant Imported(env, dists[..i]).error.None?
        invariant installedVariants == old(installedVariants) + Imported(env, dists[..i]).installed
        invariant skippedVariants == old(skippedVariants) + Imported(env, dists[..i]).skipped
      {
        ImportedStep(env, dists, i);
        ghost var before := Imported(env, dists[..i]);
        var outcome := ImportDistribution(env, dists[i]);
        if outcome.Failure? {
          assert Imported(env, dists[..i + 1]) == ImportState(before.installed, before.skipped, Some(outcome.error));
          ErrorStays(env, dists, i + 1);
          return Some(outcome.error);
        }
        ghost var installed0, skipped0 := installedVariants, skippedVariants;
        LogAppendPkgVariants(outcome.value);
        ghost var after := Imported(env, dists[..i + 1]);
        ghost var newInstalled, newSkipped := OrEmpty(outcome.value.installedVariants), OrEmpty(outcome.value.skippedVariants);
        assert after.installed == before.installed + newInstalled;
        assert after.skipped == before.skipped + newSkipped;
        assert installedVariants == installed0 + newInstalled;
        ConcatAssoc(old(installedVariants), before.installed, newInstalled);
        assert skippedVariants == skipped0 + newSkipped;
        ConcatAssoc(old(skippedVariants), before.skipped, newSkipped);
        i := i + 1;
      }
      assert dists[..i] == dists;
      return None;
    }
  }

  /** Once the loop has stopped on an error, later distributions change nothing. */
  lemma {:induction false} ErrorStays(env: Collaborators, dists: seq<Distribution>, n: nat)
    requires n <= |dists|
    requires Imported(env, dists[..n]).error.Some?
    ensures Imported(env, dists) == Imported(env, dists[..n])
    decreases |dists| - n
  {
    if n < |dists| {
      assert dists[..n + 1][..n] == dists[..n];
      ErrorStays(env, dists, n + 1);
    } else {
      assert dists[..n] == dists;
    }
  }

  lemma PrefixTransitive<T>(a: seq<T>, b: seq<T>, c: seq<T>)
    requires a <= b && b <= c
    ensures a <= c
  {
  }

  lemma ConcatAssoc<T>(a: seq<T>, b: seq<T>, c: seq<T>)
    ensures (a + b) + c == a + (b + c)
  {
  }

  /** The loop's step: the state after `i + 1` distributions follows from the state after `i`. */
  lemma ImportedStep(env: Collaborators, dists: seq<Distribution>, i: nat)
    requires i < |dists|
    requires Imported(env, dists[..i]).error.None?
    ensures Imported(env, dists[..i + 1]) == Append(Imported(env, dists[..i]), DistOutcome(env, dists[i]))
  {
    assert dists[..i + 1][..i] == dists[..i];
  }

  /** One more distribution only appends to the result lists. */
  lemma AppendGrows(env: Collaborators, dists: seq<Distribution>)
    requires dists != []
    ensures Imported(env, dists[..|dists| - 1]).installed <= Imported(env, dists).installed
    ensures Imported(env, dists[..|dists| - 1]).skipped <= Imported(env, dists).skipped
  {
    var s := Imported(env, dists[..|dists| - 1]);
    if s.error.None? {
      var o := DistOutcome(env, dists[|dists| - 1]);
      assert Imported(env, dists) == Append(s, o);
    }
  }

  /** The result lists only grow: those of a prefix of the distributions are prefixes of the final ones. */
  lemma {:induction false} ImportedGrows(env: Collaborators, dists: seq<Distribution>, n: nat)
    requires n <= |dists|
    ensures Imported(env, dists[..n]).installed <= Imported(env, dists).installed
    ensures Imported(env, dists[..n]).skipped <= Imported(env, dists).skipped
    decreases |dists| - n
  {
    if n < |dists| {
      ImportedGrows(env, dists, n + 1);
      var s0, s1, s := Imported(env, dists[..n]), Imported(env, dists[..n + 1]), Imported(env, dists);
      assert dists[..n + 1][..n] == dists[..n];
      AppendGrows(env, dists[..n + 1]);
      PrefixTransitive(s0.installed, s1.installed, s.installed);
      PrefixTransitive(s0.skipped, s1.skipped, s.skipped);
    } else {
      assert dists[..n] == dists;
    }
  }

  /** The whole of `uv_install_package` as a value: a BuildError for the first failing command, else the import result. */
  function InstallOutcome(req: InstallRequest, returnCode: Cmd -> int, env: Collaborators, dists: seq<Distribution>)
    : Result<(seq<Variant>, seq<Variant>), ImportError>
  {
    match RunAll(RunOrder(Steps(req)), returnCode)
    case Some(cmd) => Failure(BuildError(cmd))
    case None =>
      var s := Imported(env, dists);
      if s.error.Some? then Failure(Unmapped(s.error.value)) else Success((s.installed, s.skipped))
  }

  /**
   * `uv_install_package`: assembles and runs the uv commands in order (each
   * `_cmd` raising BuildError on a nonzero `returnCode`), then imports
   * `dists`, the distributions found in the scratch directory.
   */
  method UvInstallPackage(req: InstallRequest, returnCode: Cmd -> int, env: Collaborators, dists: seq<Distribution>)
    returns (r: Result<(seq<Variant>, seq<Variant>), ImportError>)
    ensures r == InstallOutcome(req, returnCode, env, dists)
  {
    var steps := AssembleCommands(req);
    RunStepsInOrder(steps, returnCode);
    ghost var failed := RunAll(RunOrder(steps), returnCode);
    if steps.compile.Some? && returnCode(steps.compile.value) != 0 {
      return Failure(BuildError(steps.compile.value));
    }
    if steps.sync.Some? && returnCode(steps.sync.value) != 0 {
      return Failure(BuildError(steps.sync.value));
    }
    if returnCode(steps.install) != 0 {
      return Failure(BuildError(steps.install));
    }
    assert failed.None?;
    var run := new ImportRun();
    var err := run.ImportAll(env, dists);
    ghost var s := Imported(env, dists);
    if err.Some? {
      return Failure(Unmapped(err.value));
    }
    assert [] + s.installed == s.installed && [] + s.skipped == s.skipped;
    return Success((run.installedVariants, run.skippedVariants));
  }

  /** A run whose commands succeed but which finds no distribution reports two empty lists. */
  lemma NothingInstalled(req: InstallRequest, returnCode: Cmd -> int, env: Collaborators)
    requires forall c :: c in RunOrder(Steps(req)) ==> returnCode(c) == 0
    ensures InstallOutcome(req, returnCode, env, []) == Success(([], []))
  {
  }

  const ExampleFiles: seq<Path> := [["bin", "tool"], ["pkg", "__init__.py"], ["pkg-1.0.dist-info", "RECORD"]]
  const ExampleDests: seq<Path> := [["bin", "tool"], ["python", "pkg", "__init__.py"], ["python", "pkg-1.0.dist-info", "RECORD"]]

  /** How each example file is classified by the remapper. */
  lemma ExampleGetMapping(cfg: RemapConfig, dist: DistId, i: nat)
    requires i < 3
    ensures GetMapping(cfg, dist, ExampleFiles[i]) == Success((ExampleFiles[i], ExampleDests[i]))
  {
    var f := ExampleFiles[i];
    if i > 0 {
      assert TopDir(f) != BinDir && TopDir(f) != ParDir && !IsAbsolute(f) by {
        assert TopDir(f)[0] == 'p' && BinDir[0] == 'b' && ParDir[0] == '.';
      }
      assert Join(PythonDir, f) == [PythonDir] + f == ExampleDests[i];
    }
  }

  /** The mapping the example's files produce. */
  const ExampleMapping: FileMapping :=
    FileMapping(ExampleFiles, map[ExampleFiles[0] := ExampleDests[0], ExampleFiles[1] := ExampleDests[1], ExampleFiles[2] := ExampleDests[2]])

  /**
   * A distribution with `bin/tool`, `pkg/__init__.py` and
   * `pkg-1.0.dist-info/RECORD`, no remap rules and every file present: the
   * tool keeps its path, the other two go under python/, and the tools list
   * is ["tool"].
   */
  lemma ExampleDistribution(engine: RegexEngine)
    ensures var r := MappingOf(RemapConfig([], engine), DistId("pkg", "1.0"), ExampleFiles, (p: Path) => true);
            && r == Success(ExampleMapping)
            && ToolsOf(Values(r.value)) == ["tool"]
  {
    var cfg, dist, onDisk := RemapConfig([], engine), DistId("pkg", "1.0"), (p: Path) => true;
    var f, d := ExampleFiles, ExampleDests;
    ExampleGetMapping(cfg, dist, 0);
    ExampleGetMapping(cfg, dist, 1);
    ExampleGetMapping(cfg, dist, 2);
    var m1 := ExampleMappingFirstTwo(cfg, dist, onDisk);
    MappingOfSnoc(cfg, dist, [f[0], f[1]], f[2], onDisk, m1, f[2], d[2]);
    ExampleMappingLast(m1);
    ExampleValues();
    ExampleTools();
  }

  lemma ExampleMappingFirst(cfg: RemapConfig, dist: DistId, onDisk: Path -> bool)
    requires cfg.rules == [] && forall p :: onDisk(p)
    ensures MappingOf(cfg, dist, [ExampleFiles[0]], onDisk) == Success(FileMapping([ExampleFiles[0]], map[ExampleFiles[0] := ExampleDests[0]]))
  {
    ExampleGetMapping(cfg, dist, 0);
    assert MappingOf(cfg, dist, [], onDisk) == Success(Empty);
    MappingOfSnoc(cfg, dist, [], ExampleFiles[0], onDisk, Empty, ExampleFiles[0], ExampleDests[0]);
    assert [] + [ExampleFiles[0]] == [ExampleFiles[0]];
  }

  lemma ExampleMappingFirstTwo(cfg: RemapConfig, dist: DistId, onDisk: Path -> bool) returns (m: FileMapping)
    requires cfg.rules == [] && forall p :: onDisk(p)
    ensures m == FileMapping([ExampleFiles[0], ExampleFiles[1]], map[ExampleFiles[0] := ExampleDests[0], ExampleFiles[1] := ExampleDests[1]])
    ensures MappingOf(cfg, dist, [ExampleFiles[0], ExampleFiles[1]], onDisk) == Success(m)
  {
    var f, d := ExampleFiles, ExampleDests;
    ExampleMappingFirst(cfg, dist, onDisk);
    ExampleGetMapping(cfg, dist, 1);
    var m1 := FileMapping([f[0]], map[f[0] := d[0]]);
    MappingOfSnoc(cfg, dist, [f[0]], f[1], onDisk, m1, f[1], d[1]);
    assert f[1] != f[0] by { assert f[1][0][0] != f[0][0][0]; }
    assert [f[0]] + [f[1]] == [f[0], f[1]];
    m := Put(m1, f[1], d[1]);
  }

  lemma ExampleMappingLast(m: FileMapping)
    requires m == FileMapping([ExampleFiles[0], ExampleFiles[1]], map[ExampleFiles[0] := ExampleDests[0], ExampleFiles[1] := ExampleDests[1]])
    ensures [ExampleFiles[0], ExampleFiles[1]] + [ExampleFiles[2]] == ExampleFiles
    ensures Put(m, ExampleFiles[2], ExampleDests[2]) == ExampleMapping
  {
    var f := ExampleFiles;
    assert f[2] != f[0] && f[2] != f[1] by { assert f[2][0][0] != f[0][0][0] && f[2][1][0] != f[1][1][0]; }
  }

  lemma ExampleValues()
    ensures Valid(ExampleMapping) && Values(ExampleMapping) == ExampleDests
  {
    var f := ExampleFiles;
    assert f[2] != f[0] && f[2] != f[1] && f[1] != f[0] by { assert f[2][0][0] != f[0][0][0] && f[2][1][0] != f[1][1][0] && f[1][0][0] != f[0][0][0]; }
    assert ExampleMapping.lut.Keys == set k | k in ExampleFiles;
  }

  lemma ExampleTools()
    ensures ToolsOf(ExampleDests) == ["tool"]
  {
    var vs := ExampleDests;
    assert vs[..2][..1] == vs[..1] && vs[..1][..0] == [] && vs[..3][..2] == vs[..2] && vs[..3] == vs;
    assert !InBinDir(vs[1]) && !InBinDir(vs[2]) by {
      assert vs[1][0][0] == 'p' && vs[2][0][0] == 'p' && BinDir[0] == 'b';
    }
    assert ToolsOf(vs[..1]) == ["tool"];
    assert ToolsOf(vs[..2]) == ["tool"];
  }
}
