/**
 * The path remapper of the uv import pipeline (`get_mapping`, nested in
 * `_get_distribution_files_mapping`): classifies one installed file's path,
 * relative to the uv `--target` directory, by its top-level segment and
 * returns the (source, destination) pair for the rez package.
 */
module Remap {
  import opened Wrappers

  /**
   * A path as the segments of `rel_src.split(os.sep)` on a POSIX system:
   * never empty ("" splits to [""]), and an absolute path starts with "".
   * Paths reaching the remapper are already `os.path.normpath`-ed.
   */
  type Path = p: seq<string> | |p| > 0 witness [""]

  const BinDir := "bin"
  const PythonDir := "python"
  const DistInfoSuffix := ".dist-info"
  const ParDir := ".."
  /** errno.EDESTADDRREQ, the errno of the IOError raised for an unmapped path. */
  const EDestAddrReq := 89

  /** One entry of the `pip_install_remaps` configuration. */
  datatype RemapRule = RemapRule(recordPath: string, pipInstall: string, rezInstall: string)

  /**
   * The regular-expression engine the rules run on, left abstract:
   * `search(pattern, path)` is `re.search`, `sub(pattern, repl, path)` is `re.sub`.
   */
  datatype RegexEngine = RegexEngine(search: (string, Path) -> bool, sub: (string, string, Path) -> Path)

  /** `config.pip_install_remaps` in configuration order, with the engine that evaluates them. */
  datatype RemapConfig = RemapConfig(rules: seq<RemapRule>, engine: RegexEngine)

  /** The distribution whose files are being mapped (for the error message). */
  datatype DistId = DistId(name: string, version: string)

  /** The IOError raised for a parent-escaping path that no rule covers. */
  datatype MappingError = UnknownSourceFile(errno: int, distRecord: Path, relSrc: Path)

  function TopDir(p: Path): string { p[0] }

  predicate EndsWith(s: string, suffix: string)
  {
    |suffix| <= |s| && s[|s| - |suffix|..] == suffix
  }

  predicate IsAbsolute(p: Path) { |p| > 1 && p[0] == "" }

  /** `os.path.join(base, p)` for a single relative segment `base`: an absolute `p` discards `base`. */
  function Join(base: string, p: Path): (r: Path)
    ensures !IsAbsolute(p) ==> |r| == |p| + 1 && r[0] == base && r[1..] == p
    ensures IsAbsolute(p) ==> r == p
  {
    if IsAbsolute(p) then p else [base] + p
  }

  /** `<name>-<version>.dist-info/RECORD`, the manifest named in the error. */
  function DistRecord(d: DistId): (r: Path)
    ensures |r| == 2 && EndsWith(r[0], DistInfoSuffix) && r[1] == "RECORD"
    ensures r[0] == d.name + "-" + d.version + DistInfoSuffix
  {
    var top := d.name + "-" + d.version + DistInfoSuffix;
    assert top[|top| - |DistInfoSuffix|..] == DistInfoSuffix;
    [top, "RECORD"]
  }

  predicate Matches(cfg: RemapConfig, rule: RemapRule, p: Path)
  {
    cfg.engine.search(rule.recordPath, p)
  }

  /** Rule `i` is the first rule, in configuration order, whose pattern matches `p`. */
  predicate IsFirstMatch(cfg: RemapConfig, p: Path, i: nat)
  {
    && i < |cfg.rules|
    && Matches(cfg, cfg.rules[i], p)
    && forall j :: 0 <= j < i ==> !Matches(cfg, cfg.rules[j], p)
  }

  /** The (pip_install, rez_install) substitutions of one rule applied to `p`. */
  function ApplyRule(cfg: RemapConfig, rule: RemapRule, p: Path): (Path, Path)
  {
    (cfg.engine.sub(rule.recordPath, rule.pipInstall, p), cfg.engine.sub(rule.recordPath, rule.rezInstall, p))
  }

  /** The index of the first matching rule, scanning from `from`; None when no rule from there on matches. */
  function FirstMatchFrom(cfg: RemapConfig, p: Path, from: nat): (r: Option<nat>)
    requires from <= |cfg.rules|
    ensures r.Some? ==> from <= r.value < |cfg.rules| && Matches(cfg, cfg.rules[r.value], p)
    ensures r.Some? ==> forall j :: from <= j < r.value ==> !Matches(cfg, cfg.rules[j], p)
    ensures r.None? <==> forall j :: from <= j < |cfg.rules| ==> !Matches(cfg, cfg.rules[j], p)
    decreases |cfg.rules| - from
  {
    if from == |cfg.rules| then None
    else if Matches(cfg, cfg.rules[from], p) then Some(from)
    else FirstMatchFrom(cfg, p, from + 1)
  }

  /**
   * `get_mapping(rel_src)`: the (source, destination) pair of one installed
   * file, or the IOError for a parent-escaping path no rule covers.
   */
  function GetMapping(cfg: RemapConfig, dist: DistId, p: Path): (r: Result<(Path, Path), MappingError>)
    // bin/...: mapped to itself
    ensures TopDir(p) == BinDir ==> r == Success((p, p))
    // *.dist-info/... and every other path outside '..': source kept, nested under python/
    ensures TopDir(p) != BinDir && TopDir(p) != ParDir ==> r == Success((p, Join(PythonDir, p)))
    // '..': the first matching rule decides both sides
    ensures TopDir(p) == ParDir && r.Success? ==>
              exists i: nat :: IsFirstMatch(cfg, p, i) && r.value == ApplyRule(cfg, cfg.rules[i], p)
    // '..' with no matching rule: EDESTADDRREQ naming the manifest and the path
    ensures TopDir(p) == ParDir ==>
              (r.Failure? <==> forall j :: 0 <= j < |cfg.rules| ==> !Matches(cfg, cfg.rules[j], p))
    ensures r.Failure? ==> r.error == UnknownSourceFile(EDestAddrReq, DistRecord(dist), p)
  {
    var top := TopDir(p);
    if top == BinDir then
      Success((p, p))
    else if EndsWith(top, DistInfoSuffix) then
      Success((p, Join(PythonDir, p)))
    else if top == ParDir then
      match FirstMatchFrom(cfg, p, 0)
      case Some(i) => Success(ApplyRule(cfg, cfg.rules[i], p))
      case None => Failure(UnknownSourceFile(EDestAddrReq, DistRecord(dist), p))
    else
      Success((p, Join(PythonDir, p)))
  }

  /** Only one rule can be the first match. */
  lemma FirstMatchUnique(cfg: RemapConfig, p: Path, i: nat, k: nat)
    requires IsFirstMatch(cfg, p, i) && IsFirstMatch(cfg, p, k)
    ensures i == k
  {
  }

  /**
   * Rules after the first matching one are never consulted: appending any
   * rules to the configuration leaves the mapping of a covered path unchanged.
   */
  lemma {:induction false} LaterRulesIgnored(cfg: RemapConfig, more: seq<RemapRule>, dist: DistId, p: Path)
    requires TopDir(p) == ParDir
    requires GetMapping(cfg, dist, p).Success?
    ensures GetMapping(RemapConfig(cfg.rules + more, cfg.engine), dist, p) == GetMapping(cfg, dist, p)
  {
    var cfg' := RemapConfig(cfg.rules + more, cfg.engine);
    var m := FirstMatchFrom(cfg, p, 0);
    assert m.Some?;
    var i := m.value;
    assert IsFirstMatch(cfg', p, i) by {
      forall j | 0 <= j <= i ensures cfg'.rules[j] == cfg.rules[j] {
      }
    }
    var m' := FirstMatchFrom(cfg', p, 0);
    assert m'.Some?;
    FirstMatchUnique(cfg', p, i, m'.value);
    assert cfg'.rules[i] == cfg.rules[i];
  }

  /**
   * Outside '..' the source is the path itself and the destination lies in
   * bin/ or python/; stripping python/ from the destination gives the source back.
   */
  lemma DestinationLayout(cfg: RemapConfig, dist: DistId, p: Path)
    requires TopDir(p) != ParDir && !IsAbsolute(p)
    ensures GetMapping(cfg, dist, p).Success?
    ensures var (src, dst) := GetMapping(cfg, dist, p).value;
            && src == p
            && (dst[0] == BinDir <==> TopDir(p) == BinDir)
            && (dst[0] != BinDir ==> dst[0] == PythonDir && dst[1..] == src)
  {
  }

  /** A destination directly in bin/ comes from a bin/ file mapped to itself or from a remap rule. */
  lemma BinDestinationOrigin(cfg: RemapConfig, dist: DistId, p: Path)
    requires GetMapping(cfg, dist, p).Success?
    requires GetMapping(cfg, dist, p).value.1[0] == BinDir
    ensures TopDir(p) == BinDir || TopDir(p) == ParDir
    ensures TopDir(p) == BinDir ==> GetMapping(cfg, dist, p).value == (p, p)
  {
  }
}
