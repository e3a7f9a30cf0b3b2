# uv import pipeline of rez, in Dafny

This project models the decision logic of `src/rez/uv.py`, the driver that
installs a Python package with `uv` and turns each installed distribution into
a rez package. It covers five parts:

- **Command assembly** (module `Installer`). The first `--no-deps` is taken out of
  the extra arguments (`list.remove`). The driver then builds the
  `uv pip compile`, `uv pip sync` and `uv pip install` command lines and runs
  them in order. A nonzero exit status stops the run with `BuildError`.
- **Path remapping** (module `Remap`). `get_mapping` classifies each installed
  file:
  - `bin/` files map to themselves.
  - Relative `.dist-info` files and other relative package files go under
    `python/`; an absolute path is returned unchanged, as `os.path.join` does.
  - Paths that escape through `..` are rewritten by the first matching
    `pip_install_remaps` rule, or rejected with errno 89 (EDESTADDRREQ), naming
    the distribution's `RECORD` file.
- **The file mapping** (module `FileMappings`). The loop over the installed files
  builds an insertion-ordered dictionary from source to destination. It skips
  files missing on disk and stops at the first rejected path.
- **The package draft** (module `PackageDrafts`). This covers the tools list (files
  whose directory is `bin`), the `commands` text, and the help links and author
  line. It also covers the other attributes set inside `make_package`.
- **The distribution loop** (module `ImportPipeline`).
  `log_append_pkg_variants` appends the maker's installed and skipped variants
  to the run's two result lists. `uv_install_package` as a whole is stated as
  a value: the first failing command, the first unmapped path, or the two lists.

Paths are sequences of segments, which is the result of splitting on `/`. An
absolute path starts with an empty segment. The following inputs are
parameters of the model:

- the regular-expression engine (`re.search`, `re.sub`);
- the existence test of `os.path.exists`;
- the requirement translator (`get_rez_requirements`);
- the name and version converters;
- the package maker (`make_package`);
- the exit status of each command.

Two behaviours of the code are worth stating on their own terms:

- **`--no-deps` from the caller.** When the caller passes `--no-deps`, the code
  removes it from the extra arguments and uses it only to skip the sync step.
  It does not switch the install mode to `no_deps`. So in mode `min_deps`, a
  single `--no-deps` from the caller never reaches the install command
  (`Installer.InstallNoDepsCount`).
- **Author line.** The author line is set whenever an author is declared, with the
  e-mail appended only when one is declared. It is not limited to
  distributions that declare both.

## Model

| member | source | states |
|---|---|---|
| Wrappers.OrEmpty | src/rez/uv.py:214-218 | `x or []`: a missing list reads as empty, a present one as itself |
| Remap.Join | src/rez/uv.py:394-395 | `os.path.join("python", p)`: a relative path is nested under the base, and an absolute path replaces it |
| Remap.DistRecord | src/rez/uv.py:408-409 | the manifest named in the error is `<name>-<version>.dist-info/RECORD` |
| Remap.FirstMatchFrom | src/rez/uv.py:399-404 | the scan of the remap rules returns the first rule (from a start index) whose pattern matches, or None exactly when none matches |
| Remap.GetMapping | src/rez/uv.py:384-446 | `bin/` maps to itself; every other path not under `..` keeps its source, and its destination is `python/` followed by the path when it is relative and the path unchanged when it is absolute (`Remap.Join`); a `..` path is rewritten by its first matching rule, and fails exactly when no rule matches, with errno 89, the RECORD path and the file |
| Remap.FirstMatchUnique | src/rez/uv.py:399-404 | at most one rule is the first match of a path |
| Remap.LaterRulesIgnored | src/rez/uv.py:399-404 | appending rules to the configuration leaves the mapping of a path already covered unchanged, because the loop returns at the first match |
| Remap.DestinationLayout | src/rez/uv.py:384-395 | outside `..` a relative file always maps; its source is itself; the destination is in `bin/` exactly for `bin/` files and otherwise is `python/` followed by the source |
| Remap.BinDestinationOrigin | src/rez/uv.py:384-404 | a destination in `bin/` comes either from a `bin/` file mapped to itself or from a remap rule |
| FileMappings.Put | src/rez/uv.py:462 | `result[rel_src] = rel_dest` overwrites the value and keeps the key's first insertion position, or appends a new key; the key list stays duplicate-free and agrees with the dictionary |
| FileMappings.Values | src/rez/uv.py:254 | `src_dst_lut.values()` lists each key's value in insertion order |
| FileMappings.MappingOf | src/rez/uv.py:449-464 | the mapping of a file list, as a fold over the list, is always a well-formed ordered dictionary |
| FileMappings.BuildFileMapping | src/rez/uv.py:449-464 | the loop with its `continue` and the exception from `get_mapping` computes exactly `MappingOf` |
| FileMappings.FailureStays | src/rez/uv.py:450-452 | once a file is rejected, later files do not change the error |
| FileMappings.MappingOfSnoc | src/rez/uv.py:450-462 | one more accepted, existing file is put on top of the mapping built so far |
| FileMappings.MappingFailsAtFirstRejected | src/rez/uv.py:450-452 | the mapping fails exactly when some file is rejected, and the error is that of the first rejected file, whether or not earlier files exist |
| FileMappings.MappingKeys | src/rez/uv.py:449-464 | on success, every key is an existing source of some file, and every file whose source exists is a key |
| FileMappings.AllMapped | src/rez/uv.py:450-452 | a successful mapping accepted every installed file |
| FileMappings.KeysAreSources | src/rez/uv.py:453-462 | every key of a successful mapping exists on disk and is the source of one of the files |
| FileMappings.SourcesAreKeys | src/rez/uv.py:453-462 | every file whose mapped source exists on disk has that source as a key |
| FileMappings.LaterFileWins | src/rez/uv.py:462 | when several files share a source, the value kept is the destination of the last of them |
| Installer.EffectiveExtraArgs | src/rez/uv.py:135 | `extra_args or config.pip_extra_args or []`: the caller's list when non-empty, otherwise the configured one; empty only when both are |
| Installer.RemoveFirst | src/rez/uv.py:135-141 | `list.remove("--no-deps")` leaves a list without the flag unchanged and otherwise removes one element |
| Installer.RemoveFirstSplits | src/rez/uv.py:137 | the removed element is the first occurrence; the elements before and after it keep their order |
| Installer.RemoveFirstCount | src/rez/uv.py:137-141 | removal lowers the flag's count by one when it was present |
| Installer.OptionPresent | src/rez/uv.py:467-472 | `_option_present` is true exactly when some option equals one of the names or starts with `name=` |
| Installer.AnyName | src/rez/uv.py:469-471 | the inner loop: one option matches one of the names |
| Installer.AssembleCommands | src/rez/uv.py:135-195 | the step-by-step appends to `compile_cmd`, `sync_cmd` and `install_cmd` produce exactly `Steps`, the section-by-section layout |
| Installer.AssembleLockCommands | src/rez/uv.py:152-184 | for a project directory, the compile line is the compile prefix, the mode flag and the extra arguments; the sync line, present only without the caller's `--no-deps`, is the sync prefix, the extra arguments and the lock file |
| Installer.StepsLayout | src/rez/uv.py:152-195 | compile runs exactly for a project directory; sync runs exactly for a project directory when the caller gave no `--no-deps`; the install command starts with the fixed prefix, carries the lock-file override for a directory, and ends with the extra arguments followed by the source name |
| Installer.InstallFlagsNotNoDeps | src/rez/uv.py:143-192 | none of the fixed words, the override or the target option of the install command is `--no-deps` |
| Installer.InstallNoDepsCount | src/rez/uv.py:135-195 | the number of `--no-deps` in the install command, as a function of the mode and of how many the caller passed |
| Installer.NoDepsModeFlagOnce | src/rez/uv.py:188-189 | in mode `no_deps`, with at most two caller-supplied `--no-deps`, the install command carries the flag exactly once |
| Installer.InstallAlwaysTargets | src/rez/uv.py:191-195 | the install command always carries `-t`/`--target`; when the caller gave none, it carries the driver's own `--target=<scratch>` |
| Installer.TargetCount | src/rez/uv.py:191-195 | the driver adds its own `--target=<scratch>` exactly when the caller gave no `-t`/`--target`: the install command has one more copy of it than the extra arguments when the caller gave none, and the same number otherwise |
| Installer.RunOrder | src/rez/uv.py:178-202 | commands run as compile (first), then sync (second to last), then install (last) |
| Installer.RunAll | src/rez/uv.py:178-202 | the run reports no failure exactly when every command exits with 0, and otherwise reports the first command with a nonzero status |
| Installer.RunStepsInOrder | src/rez/uv.py:178-202 | the failing command is compile, sync or install, tested in that order |
| PackageDrafts.InBinDirIsSplitHead | src/rez/uv.py:255-256 | a destination counts as in `bin` exactly when the head of `os.path.split`, with trailing separators stripped, is `bin` |
| PackageDrafts.CollectTools | src/rez/uv.py:253-257 | the loop over the destinations computes `ToolsOf`, the file names of destinations whose directory is `bin`, in order |
| PackageDrafts.ToolsMembership | src/rez/uv.py:253-257 | a name is a tool exactly when some destination directly in `bin/` has it as file name; there are no more tools than destinations |
| PackageDrafts.ToolsEmpty | src/rez/uv.py:253-257 | the tools list is empty exactly when no destination lies directly in `bin/` |
| PackageDrafts.CommandLines | src/rez/uv.py:305-310 | the PYTHONPATH line comes first; with tools the PATH line follows it as the second and last line, and without tools the PYTHONPATH line is the only line |
| PackageDrafts.CommandsText | src/rez/uv.py:305-312 | the `commands` text is the PYTHONPATH line alone, or that line, a newline and the PATH line |
| PackageDrafts.HelpLinks | src/rez/uv.py:328-337 | a Home Page link exists exactly when `home_page` is declared and a Source Code link exactly when `download_url` is; each carries its own URL; Home Page comes first |
| PackageDrafts.AuthorLine | src/rez/uv.py:339-343 | the author line is the author, plus a space and the e-mail exactly when one is declared |
| PackageDrafts.Authors | src/rez/uv.py:339-345 | `authors` is set exactly when an author is declared, as a one-line list |
| PackageDrafts.NonEmpty | src/rez/uv.py:298-299 | a list attribute is assigned exactly when the list is non-empty, and then to that list |
| PackageDrafts.DraftOf | src/rez/uv.py:290-345 | the attributes set in `make_package`: the description only for a non-empty summary; requires, tools and help only when non-empty; variants only for non-empty variant requirements, as a single variant; hashed variants, `from_pip`, `pip_name`, purity, commands and authors |
| ImportPipeline.ImportDistribution | src/rez/uv.py:251-290 | one iteration of the distribution loop is the mapping, the tools, the draft and the commit: `DistOutcome` |
| ImportPipeline.ImportRun.constructor | src/rez/uv.py:105-106 | both result lists start empty |
| ImportPipeline.ImportRun.LogAppendPkgVariants | src/rez/uv.py:209-226 | appends the maker's installed variants (None read as empty) to the installed list and its skipped variants to the skipped list, in order, leaving the other list unchanged |
| ImportPipeline.ImportRun.ImportAll | src/rez/uv.py:229-347 | the loop over the distributions appends exactly `Imported`'s lists and stops at the first unmapped path |
| ImportPipeline.ErrorStays | src/rez/uv.py:229-251 | after an unmapped path, later distributions change nothing |
| ImportPipeline.AppendGrows | src/rez/uv.py:221-223 | one more distribution only appends to the two lists |
| ImportPipeline.ImportedGrows | src/rez/uv.py:229-347 | the lists after a prefix of the distributions are prefixes of the final lists |
| ImportPipeline.UvInstallPackage | src/rez/uv.py:84-364 | assembles and runs the commands, then imports the distributions; the result is `InstallOutcome`, which is the first failing command, the first unmapped path, or the two lists |
| ImportPipeline.NothingInstalled | src/rez/uv.py:354-364 | when every command succeeds and no distribution is found, the result is two empty lists |
| ImportPipeline.ExampleGetMapping | src/rez/uv.py:384-446 | `bin/tool` maps to itself; `pkg/__init__.py` and `pkg-1.0.dist-info/RECORD` map under `python/` |
| ImportPipeline.ExampleDistribution | src/rez/uv.py:449-464 | with no remap rules and every file present, the example distribution's mapping has the three files in order with those destinations, and its tools list is `["tool"]` |

## Left out

- Locating `uv` (`find_uv`), resolving the interpreter context (`find_python_from_context`), and choosing the package path from `prefix`/`release` are left out. They are lookups in the environment, so the model takes `uvExe`, `pythonVersion` and the scratch directory as inputs.
- `_cmd` is left out: subprocess execution, shell quoting, the log lines of each command, and the BuildError message text. Only the exit status is modelled, as the `returnCode` parameter.
- `make_root`, `_is_exe`, and file copying with `shutil` are left out. They are file-system effects performed by the package maker.
- `DistributionPath` and `get_distributions` are not part of this model. The distributions and their installed files are an input.
- `get_rez_requirements`, `pip_to_rez_package_name`, `pip_to_rez_version` and the `make_package` transaction are not part of this model. They are function parameters, so re-running, atomicity and the skip-if-installed decision of the package store are not modelled.
- `os.path.normpath` of each installed file is left out: the model's paths are already the normalized ones. `os.path.join(targetdir, rel_src)` is folded into the existence parameter.
- The regular-expression engine is a parameter. Which patterns match and what `re.sub` produces are not modelled, only the first-match rule order.
- Logging, `print_info`/`print_debug`/`print_warning`/`print_error`, the formatted variant lines of `log_append_pkg_variants`, the empty-mapping warning, the final summary messages, the diagnostic text of the unknown-source-file error and the requirement-translation log are all left out. They only print.
- `mkdtemp` and `shutil.rmtree` of the scratch directory are left out, as file-system effects.
- Errors raised by the collaborators (translator, package maker) are left out. Only the errors raised by this file are modelled: BuildError of a command and the unmapped-path IOError.
- Installer.AssembleCommands: `_extra_args` is not a copy. When `extra_args` is truthy it is the caller's own list, so `list.remove` takes the first `--no-deps` out of the caller's list, and the caller sees that after the call. When `extra_args` is falsy (None or `[]`) it is `config.pip_extra_args`, so the configured list loses its `--no-deps` for every later call in the same process. The model works on values and does not capture this aliasing of either list.
- PackageDrafts.DraftOf: `distribution.metadata.todict()` is modelled as a record of optional fields. A key that is present with an empty value is treated like any other present key.
