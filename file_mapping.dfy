/**
 * The file-mapping builder of `_get_distribution_files_mapping`: the remapper
 * folded over a distribution's installed files into an insertion-ordered
 * dictionary from source path to destination path.
 */
module FileMappings {
  import opened Wrappers
  import opened Remap

  /**
   * A Python dict from source path to destination path: `order` is the
   * insertion order of the keys, `lut` the key-value pairs.
   */
  datatype FileMapping = FileMapping(order: seq<Path>, lut: map<Path, Path>)

  /** Keys listed once each, and exactly the keys of `lut`. */
  predicate Valid(m: FileMapping)
  {
    && (forall i, j :: 0 <= i < j < |m.order| ==> m.order[i] != m.order[j])
    && m.lut.Keys == set k | k in m.order
  }

  const Empty := FileMapping([], map[])

  /** `result[k] = v`: a new key goes last, an existing key keeps its place and takes the new value. */
  function Put(m: FileMapping, k: Path, v: Path): (r: FileMapping)
    ensures Valid(m) ==> Valid(r)
    ensures r.lut == m.lut[k := v]
    ensures k in m.lut ==> r.order == m.order
    ensures k !in m.lut ==> r.order == m.order + [k]
  {
    if k in m.lut then FileMapping(m.order, m.lut[k := v]) else FileMapping(m.order + [k], m.lut[k := v])
  }

  /** `dict.values()`, in insertion order. */
  function Values(m: FileMapping): (vs: seq<Path>)
    requires Valid(m)
    ensures |vs| == |m.order|
    ensures forall i :: 0 <= i < |vs| ==> vs[i] == m.lut[m.order[i]]
  {
    seq(|m.order|, i requires 0 <= i < |m.order| => m.lut[m.order[i]])
  }

  /**
   * The dictionary built from `files[..]` in order, or the error of the first
   * file the remapper rejects; `onDisk(src)` says whether `<targetdir>/<src>`
   * exists on disk.
   */
  function MappingOf(cfg: RemapConfig, dist: DistId, files: seq<Path>, onDisk: Path -> bool)
    : (r: Result<FileMapping, MappingError>)
    ensures r.Success? ==> Valid(r.value)
    decreases |files|
  {
    if files == [] then Success(Empty)
    else
      var n := |files| - 1;
      match MappingOf(cfg, dist, files[..n], onDisk)
      case Failure(e) => Failure(e)
      case Success(m) =>
        match GetMapping(cfg, dist, files[n])
        case Failure(e) => Failure(e)
        case Success((src, dst)) => if onDisk(src) then Success(Put(m, src, dst)) else Success(m)
  }

  /** `_get_distribution_files_mapping`: the loop over the installed files, skipping missing sources. */
  method BuildFileMapping(cfg: RemapConfig, dist: DistId, files: seq<Path>, onDisk: Path -> bool)
    returns (r: Result<FileMapping, MappingError>)
    ensures r == MappingOf(cfg, dist, files, onDisk)
  {
    var result := Empty;
    var i := 0;
    while i < |files|
      invariant 0 <= i <= |files|
      invariant MappingOf(cfg, dist, files[..i], onDisk) == Success(result)
    {
      assert files[..i + 1][..i] == files[..i];
      var mapped := GetMapping(cfg, dist, files[i]);
      if mapped.Failure? {
        assert MappingOf(cfg, dist, files[..i + 1], onDisk) == Failure(mapped.error);
        FailureStays(cfg, dist, files, onDisk, i + 1);
        return Failure(mapped.error);
      }
      var (src, dst) := mapped.value;
      if onDisk(src) {
        result := Put(result, src, dst);
      }
      i := i + 1;
    }
    assert files[..i] == files;
    return Success(result);
  }

  /** Once a prefix of the files fails, the whole list fails with the same error. */
  lemma {:induction false} FailureStays(cfg: RemapConfig, dist: DistId, files: seq<Path>, onDisk: Path -> bool, n: nat)
    requires n <= |files|
    requires MappingOf(cfg, dist, files[..n], onDisk).Failure?
    ensures MappingOf(cfg, dist, files, onDisk) == MappingOf(cfg, dist, files[..n], onDisk)
    decreases |files| - n
  {
    if n < |files| {
      assert files[..n + 1][..n] == files[..n];
      FailureStays(cfg, dist, files, onDisk, n + 1);
    } else {
      assert files[..n] == files;
    }
  }

  /** Mapping one more accepted file whose source exists puts its pair on top of the mapping so far. */
  lemma MappingOfSnoc(cfg: RemapConfig, dist: DistId, files: seq<Path>, f: Path, onDisk: Path -> bool, m: FileMapping,
                      src: Path, dest: Path)
    requires MappingOf(cfg, dist, files, onDisk) == Success(m)
    requires GetMapping(cfg, dist, f) == Success((src, dest)) && onDisk(src)
    ensures MappingOf(cfg, dist, files + [f], onDisk) == Success(Put(m, src, dest))
  {
    assert (files + [f])[..|files|] == files;
  }

  /** The source path a successfully mapped file is stored under. */
  function SourceOf(cfg: RemapConfig, dist: DistId, f: Path): Path
    requires GetMapping(cfg, dist, f).Success?
  {
    GetMapping(cfg, dist, f).value.0
  }

  /**
   * The mapping fails exactly when the remapper rejects one of the files, and
   * then with the error of the first rejected file, whether or not any file
   * exists on disk.
   */
  lemma {:induction false} MappingFailsAtFirstRejected(cfg: RemapConfig, dist: DistId, files: seq<Path>, onDisk: Path -> bool)
    ensures MappingOf(cfg, dist, files, onDisk).Failure? <==>
              exists i :: 0 <= i < |files| && GetMapping(cfg, dist, files[i]).Failure?
    ensures MappingOf(cfg, dist, files, onDisk).Failure? ==>
              exists i :: && 0 <= i < |files|
                          && (forall j :: 0 <= j < i ==> GetMapping(cfg, dist, files[j]).Success?)
                          && GetMapping(cfg, dist, files[i]) == Failure(MappingOf(cfg, dist, files, onDisk).error)
    decreases |files|
  {
    if files != [] {
      var n := |files| - 1;
      var prefix := files[..n];
      MappingFailsAtFirstRejected(cfg, dist, prefix, onDisk);
      if MappingOf(cfg, dist, prefix, onDisk).Failure? {
        var i :| && 0 <= i < |prefix|
                 && (forall j :: 0 <= j < i ==> GetMapping(cfg, dist, prefix[j]).Success?)
                 && GetMapping(cfg, dist, prefix[i]) == Failure(MappingOf(cfg, dist, prefix, onDisk).error);
        assert files[i] == prefix[i];
        assert forall j :: 0 <= j < i ==> files[j] == prefix[j];
      } else {
        assert forall j :: 0 <= j < n ==> files[j] == prefix[j];
        if GetMapping(cfg, dist, files[n]).Failure? {
          assert forall j :: 0 <= j < n ==> GetMapping(cfg, dist, files[j]).Success?;
        }
      }
    }
  }

  /**
   * A successful mapping is a well-formed dictionary whose keys are exactly
   * the mapped sources that exist on disk: every key is an existing mapped
   * source, and every existing mapped source is a key.
   */
  lemma {:induction false} MappingKeys(cfg: RemapConfig, dist: DistId, files: seq<Path>, onDisk: Path -> bool)
    requires MappingOf(cfg, dist, files, onDisk).Success?
    ensures forall i :: 0 <= i < |files| ==> GetMapping(cfg, dist, files[i]).Success?
    ensures Valid(MappingOf(cfg, dist, files, onDisk).value)
    ensures forall k :: k in MappingOf(cfg, dist, files, onDisk).value.lut ==>
              onDisk(k) && exists i :: 0 <= i < |files| && SourceOf(cfg, dist, files[i]) == k
    ensures forall i :: 0 <= i < |files| && onDisk(SourceOf(cfg, dist, files[i])) ==>
              SourceOf(cfg, dist, files[i]) in MappingOf(cfg, dist, files, onDisk).value.lut
  {
    AllMapped(cfg, dist, files, onDisk);
    KeysAreSources(cfg, dist, files, onDisk);
    SourcesAreKeys(cfg, dist, files, onDisk);
  }

  /** A successful mapping accepted every file. */
  lemma {:induction false} AllMapped(cfg: RemapConfig, dist: DistId, files: seq<Path>, onDisk: Path -> bool)
    requires MappingOf(cfg, dist, files, onDisk).Success?
    ensures forall i :: 0 <= i < |files| ==> GetMapping(cfg, dist, files[i]).Success?
    decreases |files|
  {
    if files != [] {
      var prefix := files[..|files| - 1];
      AllMapped(cfg, dist, prefix, onDisk);
      assert forall j :: 0 <= j < |prefix| ==> files[j] == prefix[j];
    }
  }

  /** Every key of a successful mapping is an existing source of one of the files. */
  lemma {:induction false} KeysAreSources(cfg: RemapConfig, dist: DistId, files: seq<Path>, onDisk: Path -> bool)
    requires MappingOf(cfg, dist, files, onDisk).Success?
    ensures forall i :: 0 <= i < |files| ==> GetMapping(cfg, dist, files[i]).Success?
    ensures forall k :: k in MappingOf(cfg, dist, files, onDisk).value.lut ==>
              onDisk(k) && exists i :: 0 <= i < |files| && SourceOf(cfg, dist, files[i]) == k
    decreases |files|
  {
    AllMapped(cfg, dist, files, onDisk);
    if files != [] {
      var n := |files| - 1;
      var prefix := files[..n];
      KeysAreSources(cfg, dist, prefix, onDisk);
      var m0 := MappingOf(cfg, dist, prefix, onDisk).value;
      var m := MappingOf(cfg, dist, files, onDisk).value;
      var src := SourceOf(cfg, dist, files[n]);
      assert m.lut.Keys <= m0.lut.Keys + {src};
      assert src in m.lut ==> onDisk(src);
      forall k | k in m.lut ensures onDisk(k) && exists i :: 0 <= i < |files| && SourceOf(cfg, dist, files[i]) == k {
        if k != src {
          var i :| 0 <= i < |prefix| && SourceOf(cfg, dist, prefix[i]) == k;
          assert files[i] == prefix[i];
        }
      }
    }
  }

  /** Every file whose source exists has that source as a key. */
  lemma {:induction false} SourcesAreKeys(cfg: RemapConfig, dist: DistId, files: seq<Path>, onDisk: Path -> bool)
    requires MappingOf(cfg, dist, files, onDisk).Success?
    ensures forall i :: 0 <= i < |files| ==> GetMapping(cfg, dist, files[i]).Success?
    ensures forall i :: 0 <= i < |files| && onDisk(SourceOf(cfg, dist, files[i])) ==>
              SourceOf(cfg, dist, files[i]) in MappingOf(cfg, dist, files, onDisk).value.lut
    decreases |files|
  {
    AllMapped(cfg, dist, files, onDisk);
    if files != [] {
      var n := |files| - 1;
      var prefix := files[..n];
      SourcesAreKeys(cfg, dist, prefix, onDisk);
      assert forall j :: 0 <= j < n ==> files[j] == prefix[j];
      var m0 := MappingOf(cfg, dist, prefix, onDisk).value;
      var m := MappingOf(cfg, dist, files, onDisk).value;
      assert m0.lut.Keys <= m.lut.Keys;
    }
  }

  /** The file at index `i` is the last one whose mapped source is `k`. */
  predicate LastWriter(cfg: RemapConfig, dist: DistId, files: seq<Path>, i: nat, k: Path)
  {
    && i < |files|
    && GetMapping(cfg, dist, files[i]).Success?
    && SourceOf(cfg, dist, files[i]) == k
    && forall j :: i < j < |files| && GetMapping(cfg, dist, files[j]).Success? ==> SourceOf(cfg, dist, files[j]) != k
  }

  /** When several files map to the same source, the value stored is the destination of the last of them. */
  lemma {:induction false} LaterFileWins(cfg: RemapConfig, dist: DistId, files: seq<Path>, onDisk: Path -> bool)
    requires MappingOf(cfg, dist, files, onDisk).Success?
    ensures var m := MappingOf(cfg, dist, files, onDisk).value;
            forall k :: k in m.lut ==>
              exists i: nat :: LastWriter(cfg, dist, files, i, k) && GetMapping(cfg, dist, files[i]).value.1 == m.lut[k]
    decreases |files|
  {
    if files != [] {
      var n := |files| - 1;
      var prefix := files[..n];
      LaterFileWins(cfg, dist, prefix, onDisk);
      var m0 := MappingOf(cfg, dist, prefix, onDisk).value;
      var m := MappingOf(cfg, dist, files, onDisk).value;
      var mapped := GetMapping(cfg, dist, files[n]);
      assert mapped.Success?;
      var (src, dst) := mapped.value;
      assert m.lut == if onDisk(src) then m0.lut[src := dst] else m0.lut;
      forall k | k in m.lut
        ensures exists i: nat :: LastWriter(cfg, dist, files, i, k) && GetMapping(cfg, dist, files[i]).value.1 == m.lut[k]
      {
        if k == src && onDisk(src) {
          assert LastWriter(cfg, dist, files, n, k);
        } else {
          assert k in m0.lut && m.lut[k] == m0.lut[k];
          var i: nat :| LastWriter(cfg, dist, prefix, i, k) && GetMapping(cfg, dist, prefix[i]).value.1 == m0.lut[k];
          MappingKeys(cfg, dist, prefix, onDisk);
          LastWriterExtends(cfg, dist, files, i, k);
        }
      }
    }
  }

  /** The last writer of `k` among all but the last file stays the last writer when the last file writes another key. */
  lemma LastWriterExtends(cfg: RemapConfig, dist: DistId, files: seq<Path>, i: nat, k: Path)
    requires |files| > 0
    requires LastWriter(cfg, dist, files[..|files| - 1], i, k)
    requires GetMapping(cfg, dist, files[|files| - 1]).Success?
    requires SourceOf(cfg, dist, files[|files| - 1]) != k
    ensures LastWriter(cfg, dist, files, i, k)
    ensures files[i] == files[..|files| - 1][i]
  {
    var prefix := files[..|files| - 1];
    assert forall j :: 0 <= j < |prefix| ==> files[j] == prefix[j];
  }
}
