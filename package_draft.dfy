/**
 * The package draft `uv_install_package` fills in inside `make_package` for
 * one distribution: tools, commands, variants, help links and authors.
 */
module PackageDrafts {
  import opened Wrappers
  import opened Remap

  /** The distribution metadata keys read here, each None when absent from `metadata.todict()`. */
  datatype Metadata = Metadata(
    summary: Option<string>,
    homePage: Option<string>,
    downloadUrl: Option<string>,
    author: Option<string>,
    authorEmail: Option<string>)

  /** What `get_rez_requirements` returns for a distribution (computed outside this model). */
  datatype Translation = Translation(rezRequires: seq<string>, variantRequires: seq<string>, isPurePython: bool)

  datatype HelpLink = HelpLink(title: string, url: string)

  /** The attributes set on the package; None means the attribute is not assigned. */
  datatype PackageDraft = PackageDraft(
    name: string,
    version: string,
    description: Option<string>,
    rezRequires: Option<seq<string>>,
    variants: Option<seq<seq<string>>>,
    tools: Option<seq<string>>,
    commands: string,
    hashedVariants: bool,
    pipName: string,
    fromPip: bool,
    isPurePython: bool,
    help: Option<seq<HelpLink>>,
    authors: Option<seq<string>>)

  const PythonPathCommand := "env.PYTHONPATH.append('{root}/python')"
  const PathCommand := "env.PATH.append('{root}/bin')"
  const HomePageLabel := "Home Page"
  const SourceCodeLabel := "Source Code"

  /**
   * The head of `os.path.split(p)` is "bin": the first segment is "bin", the
   * last is the file name, and anything between is empty (trailing separators
   * of the head are stripped).
   */
  predicate InBinDir(p: Path)
  {
    && |p| >= 2
    && p[0] == BinDir
    && forall i :: 1 <= i < |p| - 1 ==> p[i] == ""
  }

  /** A sequence of segments without its trailing empty ones (`str.rstrip('/')` on the joined path). */
  function RStripEmpty(s: seq<string>): (r: seq<string>)
    ensures r <= s
    ensures r == [] || r[|r| - 1] != ""
    ensures forall i :: |r| <= i < |s| ==> s[i] == ""
  {
    if s != [] && s[|s| - 1] == "" then RStripEmpty(s[..|s| - 1]) else s
  }

  /** The segments of the head of `os.path.split(p)`: all but the last, trailing separators stripped. */
  function SplitHead(p: Path): seq<string>
  {
    RStripEmpty(p[..|p| - 1])
  }

  /** `InBinDir` is exactly the test `os.path.split(p)[0] == "bin"`. */
  lemma InBinDirIsSplitHead(p: Path)
    ensures InBinDir(p) <==> SplitHead(p) == [BinDir]
  {
    var s := p[..|p| - 1];
    var r := SplitHead(p);
    if InBinDir(p) {
      assert s[0] == BinDir && s[0] != "";
      assert |r| >= 1;
      assert r[|r| - 1] == s[|r| - 1];
      assert |r| == 1;
      assert r == [s[0]];
    }
    if r == [BinDir] {
      assert s[0] == r[0];
      forall i | 1 <= i < |p| - 1 ensures p[i] == "" {
        assert s[i] == "";
      }
    }
  }

  /** The tail of `os.path.split(p)`. */
  function FileName(p: Path): string { p[|p| - 1] }

  /** The tools list: file names of the destinations whose directory is "bin", in order. */
  function ToolsOf(dests: seq<Path>): seq<string>
  {
    if dests == [] then []
    else
      var n := |dests| - 1;
      ToolsOf(dests[..n]) + if InBinDir(dests[n]) then [FileName(dests[n])] else []
  }

  /** The loop over `src_dst_lut.values()` building `tools`. */
  method CollectTools(dests: seq<Path>) returns (tools: seq<string>)
    ensures tools == ToolsOf(dests)
  {
    tools := [];
    var i := 0;
    while i < |dests|
      invariant 0 <= i <= |dests|
      invariant tools == ToolsOf(dests[..i])
    {
      assert dests[..i + 1][..i] == dests[..i];
      var relpath := dests[i];
      if InBinDir(relpath) {
        tools := tools + [FileName(relpath)];
      }
      i := i + 1;
    }
    assert dests[..i] == dests;
  }

  /** A name is a tool exactly when some destination in bin/ has it as file name; there are never more tools than destinations. */
  lemma {:induction false} ToolsMembership(dests: seq<Path>)
    ensures |ToolsOf(dests)| <= |dests|
    ensures forall t :: t in ToolsOf(dests) <==> exists i :: 0 <= i < |dests| && InBinDir(dests[i]) && FileName(dests[i]) == t
  {
    if dests != [] {
      var n := |dests| - 1;
      ToolsMembership(dests[..n]);
      assert forall i :: 0 <= i < n ==> dests[i] == dests[..n][i];
    }
  }

  /** The tools list is empty exactly when no destination lies directly in bin/. */
  lemma ToolsEmpty(dests: seq<Path>)
    ensures ToolsOf(dests) == [] <==> forall i :: 0 <= i < |dests| ==> !InBinDir(dests[i])
  {
    ToolsMembership(dests);
    forall i | 0 <= i < |dests| && InBinDir(dests[i]) ensures FileName(dests[i]) in ToolsOf(dests) {
    }
    assert ToolsOf(dests) != [] ==> ToolsOf(dests)[0] in ToolsOf(dests);
  }

  /** `'\n'.join(lines)`. */
  function JoinLines(lines: seq<string>): string
  {
    if lines == [] then "" else if |lines| == 1 then lines[0] else lines[0] + "\n" + JoinLines(lines[1..])
  }

  /** The command lines: PYTHONPATH always first, PATH added only when there are tools. */
  function CommandLines(tools: seq<string>): (lines: seq<string>)
    ensures |lines| >= 1 && lines[0] == PythonPathCommand
    ensures PathCommand in lines <==> tools != []
    ensures |lines| == if tools != [] then 2 else 1
  {
    [PythonPathCommand] + if tools != [] then [PathCommand] else []
  }

  /** The help links, Home Page before Source Code, each only when its key is present. */
  function HelpLinks(md: Metadata): (help: seq<HelpLink>)
    ensures |help| <= 2
    ensures help == [] <==> md.homePage.None? && md.downloadUrl.None?
    ensures (exists i :: 0 <= i < |help| && help[i].title == HomePageLabel) <==> md.homePage.Some?
    ensures (exists i :: 0 <= i < |help| && help[i].title == SourceCodeLabel) <==> md.downloadUrl.Some?
    ensures forall i :: 0 <= i < |help| ==>
              || (help[i].title == HomePageLabel && md.homePage == Some(help[i].url))
              || (help[i].title == SourceCodeLabel && md.downloadUrl == Some(help[i].url))
    ensures |help| == 2 ==> help[0].title == HomePageLabel && help[1].title == SourceCodeLabel
  {
    var home := if md.homePage.Some? then [HelpLink(HomePageLabel, md.homePage.value)] else [];
    var source := if md.downloadUrl.Some? then [HelpLink(SourceCodeLabel, md.downloadUrl.value)] else [];
    var help := home + source;
    assert md.homePage.Some? ==> help[0].title == HomePageLabel;
    assert md.downloadUrl.Some? ==> help[|help| - 1].title == SourceCodeLabel;
    help
  }

  /** The `commands` string: the command lines joined by newlines. */
  function CommandsText(tools: seq<string>): (text: string)
    ensures tools == [] ==> text == PythonPathCommand
    ensures tools != [] ==> text == PythonPathCommand + "\n" + PathCommand
  {
    var lines := CommandLines(tools);
    assert tools != [] ==> JoinLines(lines) == lines[0] + "\n" + JoinLines(lines[1..]);
    JoinLines(lines)
  }

  /** The author line: the author, followed by a space and the e-mail address when one is declared. */
  function AuthorLine(author: string, email: Option<string>): (line: string)
    ensures |line| >= |author| && line[..|author|] == author
    ensures email.None? <==> line == author
    ensures email.Some? ==> line[|author|..] == " " + email.value
  {
    match email
    case Some(e) => author + " " + e
    case None => author
  }

  /** The `authors` attribute: one author line, assigned only when an author is declared. */
  function Authors(md: Metadata): (authors: Option<seq<string>>)
    ensures authors.Some? <==> md.author.Some?
    ensures authors.Some? ==> authors.value == [AuthorLine(md.author.value, md.authorEmail)]
  {
    if md.author.Some? then Some([AuthorLine(md.author.value, md.authorEmail)]) else None
  }

  /** A list attribute is assigned only when the list is non-empty. */
  function NonEmpty<T>(s: seq<T>): (o: Option<seq<T>>)
    ensures o.Some? <==> s != []
    ensures o.Some? ==> o.value == s
  {
    if s != [] then Some(s) else None
  }

  /**
   * The attributes assigned inside `make_package` for one distribution, with
   * `tools` the list built from the file mapping.
   */
  function DraftOf(name: string, version: string, nameAndVersion: string, md: Metadata, tr: Translation,
                   tools: seq<string>): (d: PackageDraft)
    ensures d.name == name && d.version == version
    ensures d.hashedVariants && d.fromPip && d.pipName == nameAndVersion && d.isPurePython == tr.isPurePython
    ensures d.description.Some? <==> md.summary.Some? && md.summary.value != ""
    ensures d.description.Some? ==> d.description == md.summary
    ensures d.rezRequires == NonEmpty(tr.rezRequires)
    // never a single empty variant
    ensures d.variants.Some? <==> tr.variantRequires != []
    ensures d.variants.Some? ==> d.variants.value == [tr.variantRequires]
    ensures d.tools == NonEmpty(tools)
    ensures d.commands == CommandsText(tools)
    ensures d.help == NonEmpty(HelpLinks(md))
    ensures d.authors == Authors(md)
  {
    var description := if md.summary.Some? && md.summary.value != "" then md.summary else None;
    var variants := if tr.variantRequires != [] then Some([tr.variantRequires]) else None;
    PackageDraft(
      name, version, description, NonEmpty(tr.rezRequires), variants, NonEmpty(tools), CommandsText(tools),
      true, nameAndVersion, true, tr.isPurePython, NonEmpty(HelpLinks(md)), Authors(md))
  }
}
