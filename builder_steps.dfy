/** agent_build/tools/builder.py, the steps as values: what a step is built from, the files it
    tracks, the "overall info" record its id hashes, the post-order list of cacheable steps, and
    the command line and environment its script gets. The step graph is a DAG of immutable values
    here; the memo fields of the Python objects only cache these functions of a fixed checkout. */
module BuilderSteps {
  import opened Wrappers
  import opened Strings
  import opened Paths
  import opened Hashing
  import opened SourceTree
  import opened BuildConstants
  import opened DeployerFiles

  /** `DockerImageSpec`: an image name and the architecture it is built for. */
  datatype DockerImageSpec = DockerImageSpec(name: string, architecture: Architecture)

  /** `DockerImageSpec.as_dict()`. */
  datatype ImageDict = ImageDict(name: string, architecture: string)

  function AsDict(i: DockerImageSpec): (r: ImageDict)
    ensures r.name == i.name && ArchitectureOf(r.architecture) == Ok(i.architecture)
  {
    ArchitectureOfValue(i.architecture);
    ImageDict(i.name, ArchValue(i.architecture))
  }

  /** One `NAME=VALUE` pair of `additional_settings`; a value may be `None`. */
  datatype Setting = Setting(name: string, value: Option<string>)

  /** `ArtifactBuilderStep` or its subclass `EnvironmentBuilderStep`. */
  datatype StepKind = Artifact | Environment

  /** A constructed step. `baseStep` and `baseImage` are what the constructor derived from its
      `base_step` argument. */
  datatype Step = Step(kind: StepKind, name: string, script: Path, globs: seq<string>,
                       deps: seq<Step>, settings: seq<Setting>, cacheable: bool,
                       baseStep: Option<Step>, baseImage: Option<DockerImageSpec>)

  /** The `base_step` argument: nothing, an image, or another step. */
  datatype BaseArg = NoBase | ImageArg(spec: DockerImageSpec) | StepArg(step: Step)

  /** `_overall_info`: everything whose change must invalidate the step's cache. */
  datatype OverallInfo = OverallInfo(name: string, usedFiles: seq<Path>, filesChecksum: string,
                                     dependencyStepsIds: seq<string>, baseStepId: Option<string>,
                                     additionalSettings: seq<Setting>, dockerImage: Option<ImageDict>)

  /** What a build sees from outside: the checkout, SHA-256 (as hex digests), the
      `json.dumps(..., sort_keys=True, indent=4)` text of an info record, the process environment,
      and the scripts that exit non-zero. */
  datatype Context = Context(tree: Tree, h: Hasher, json: OverallInfo -> string,
                             environ: map<string, string>, failing: set<Path>)

  /** `runs_in_docker`. */
  predicate RunsInDocker(s: Step) { s.baseImage.Some? }

  // ---------------------------------------------------------------- tracked files

  const DockerIgnore: Path := ".dockerignore"

  /** The lines of `.dockerignore` (`splitlines`). */
  function IgnoreLines(t: Tree): seq<string> { SplitLines(t.content(DockerIgnore)) }

  /** A pattern with a leading `/` is made relative to `/`. */
  function IgnorePattern(line: string): (r: string)
    ensures |r| <= |line|
  {
    if |line| > 0 && line[0] == '/' then line[1..] else line
  }

  /** `p` matches a non-empty line of `.dockerignore`. */
  predicate Ignored(p: Path, lines: seq<string>, t: Tree)
  {
    exists j :: 0 <= j < |lines| && lines[j] != "" && t.matches(p, IgnorePattern(lines[j]))
  }

  /** `paths_excluded`: a found path that an ignore line matches, or anything below a found
      directory that one matches. */
  predicate Excluded(p: Path, found: seq<Path>, lines: seq<string>, t: Tree)
  {
    Ignored(p, lines, t) || exists q :: q in found && Ignored(q, lines, t) && t.isDir(q) && p in t.descendants(q)
  }

  /** The elements of `xs`, each once. */
  function Dedup(xs: seq<Path>): (r: seq<Path>)
    ensures forall p :: p in r <==> p in xs
    ensures Distinct(r)
  {
    if xs == [] then []
    else if xs[0] in xs[1..] then Dedup(xs[1..])
    else [xs[0]] + Dedup(xs[1..])
  }

  predicate Distinct(xs: seq<Path>)
  {
    forall i, j :: 0 <= i < j < |xs| ==> xs[i] != xs[j]
  }

  /** Appending an element not yet present keeps a sequence free of repeats. */
  lemma AppendFresh(xs: seq<Path>, p: Path)
    requires Distinct(xs) && p !in xs
    ensures Distinct(xs + [p])
  {
    var ys := xs + [p];
    forall i, j | 0 <= i < j < |ys| ensures ys[i] != ys[j] {
      if j == |xs| { assert ys[i] == xs[i]; }
    }
  }

  /** `found_paths`: the union of the globs' matches. */
  function FoundPaths(globs: seq<string>, t: Tree): (r: seq<Path>)
    ensures Distinct(r)
    ensures forall p :: p in r <==> exists i :: 0 <= i < |globs| && p in t.glob(globs[i])
  {
    Dedup(Globbed(globs, t))
  }

  /** The found paths outside `paths_excluded` that are not directories. */
  function KeepTracked(rest: seq<Path>, found: seq<Path>, lines: seq<string>, t: Tree): (r: seq<Path>)
    ensures forall p :: p in r <==> p in rest && !Excluded(p, found, lines, t) && !t.isDir(p)
    ensures Distinct(rest) ==> Distinct(r)
  {
    if rest == [] then []
    else
      var tail := KeepTracked(rest[1..], found, lines, t);
      if !Excluded(rest[0], found, lines, t) && !t.isDir(rest[0]) then [rest[0]] + tail else tail
  }

  /** Whether `_init_tracked_file_paths` keeps `p` from the globs. */
  predicate TrackedFromGlobs(s: Step, t: Tree, p: Path)
  {
    var found := FoundPaths(s.globs, t);
    p in found && !Excluded(p, found, IgnoreLines(t), t) && !t.isDir(p)
  }

  /** `_init_tracked_file_paths`: the kept paths, then `.dockerignore`, then the script. */
  function TrackedSources(s: Step, t: Tree): (r: seq<Path>)
    ensures |r| >= 2 && r[|r| - 2..] == [DockerIgnore, s.script]
    ensures Distinct(r[..|r| - 2])
    ensures forall p :: p in r[..|r| - 2] <==> TrackedFromGlobs(s, t, p)
  {
    var found := FoundPaths(s.globs, t);
    var kept := KeepTracked(found, found, IgnoreLines(t), t);
    var r := kept + [DockerIgnore, s.script];
    assert r[..|r| - 2] == kept;
    r
  }

  /** `tracked_file_paths`: the tracked paths in `sorted()` order. A path that is both globbed and
      the script (or `.dockerignore`) is listed twice. */
  function TrackedFilePaths(s: Step, t: Tree): (r: seq<Path>)
    ensures Sorted(r) && multiset(r) == multiset(TrackedSources(s, t))
    ensures forall p :: p in r <==> TrackedFromGlobs(s, t, p) || p == DockerIgnore || p == s.script
  {
    var src := TrackedSources(s, t);
    var r := SortPaths(src);
    SameElementsWithLastTwo(r, src, DockerIgnore, s.script);
    r
  }

  /** A rearrangement of a list ending in `a, b` holds what the rest holds, and `a` and `b`. */
  lemma SameElementsWithLastTwo(r: seq<Path>, src: seq<Path>, a: Path, b: Path)
    requires multiset(r) == multiset(src) && |src| >= 2 && src[|src| - 2..] == [a, b]
    ensures forall p :: p in r <==> p in src[..|src| - 2] || p == a || p == b
  {
    assert src == src[..|src| - 2] + [a, b];
    forall p ensures p in r <==> p in src[..|src| - 2] || p == a || p == b {
      assert p in r <==> p in multiset(r);
      assert p in src <==> p in multiset(src);
    }
  }

  /** A distinct list holds each of its elements once. */
  lemma {:induction false} DistinctCount(a: seq<Path>, p: Path)
    requires Distinct(a)
    ensures multiset(a)[p] == if p in a then 1 else 0
    decreases |a|
  {
    if a != [] {
      assert a == [a[0]] + a[1..];
      assert Distinct(a[1..]) by {
        forall i, j | 0 <= i < j < |a| - 1 ensures a[1..][i] != a[1..][j] { assert a[i + 1] != a[j + 1]; }
      }
      DistinctCount(a[1..], p);
      assert p == a[0] ==> p !in a[1..];
    }
  }

  /** Two distinct lists with the same elements are permutations of each other. */
  lemma DistinctSameElements(a: seq<Path>, b: seq<Path>)
    requires Distinct(a) && Distinct(b)
    requires forall p :: p in a <==> p in b
    ensures multiset(a) == multiset(b)
  {
    forall p ensures multiset(a)[p] == multiset(b)[p] {
      DistinctCount(a, p);
      DistinctCount(b, p);
    }
  }

  /** The order in which globs yield their matches does not affect the tracked paths: only which
      paths match. */
  lemma TrackedFilePathsIgnoreGlobOrder(s: Step, t1: Tree, t2: Tree)
    requires t2 == t1.(glob := t2.glob)
    requires forall i :: 0 <= i < |s.globs| ==> (forall p :: p in t1.glob(s.globs[i]) <==> p in t2.glob(s.globs[i]))
    ensures TrackedFilePaths(s, t1) == TrackedFilePaths(s, t2)
  {
    var a, b := TrackedSources(s, t1), TrackedSources(s, t2);
    var f1, f2 := FoundPaths(s.globs, t1), FoundPaths(s.globs, t2);
    assert forall p :: p in f1 <==> p in f2;
    assert forall p :: Excluded(p, f1, IgnoreLines(t1), t1) <==> Excluded(p, f2, IgnoreLines(t2), t2);
    var n1, n2 := |a| - 2, |b| - 2;
    forall p ensures p in a[..n1] <==> p in b[..n2] {
      assert TrackedFromGlobs(s, t1, p) <==> TrackedFromGlobs(s, t2, p);
    }
    DistinctSameElements(a[..n1], b[..n2]);
    assert a == a[..n1] + [DockerIgnore, s.script] && b == b[..n2] + [DockerIgnore, s.script];
    SortIgnoresInputOrder(a, b);
  }

  /** `_init_tracked_file_paths`, step by step: the union of the globs' matches, the paths that an
      ignore line matches, the children of the matched directories, the remaining non-directories
      in the set's order, then `.dockerignore` and the script. */
  method InitTrackedFilePaths(s: Step, t: Tree) returns (r: seq<Path>)
    ensures |r| >= 2 && r[|r| - 2..] == [DockerIgnore, s.script]
    ensures Distinct(r[..|r| - 2])
    ensures forall p :: p in r[..|r| - 2] <==> TrackedFromGlobs(s, t, p)
  {
    var found: set<Path> := {};
    var i := 0;
    while i < |s.globs|
      invariant 0 <= i <= |s.globs|
      invariant forall p :: p in found <==> exists j :: 0 <= j < i && p in t.glob(s.globs[j])
    {
      found := found + set p | p in t.glob(s.globs[i]);
      i := i + 1;
    }
    var lines := IgnoreLines(t);
    var excluded: seq<Path> := [];
    var k := 0;
    while k < |lines|
      invariant 0 <= k <= |lines|
      invariant forall p :: p in excluded <==> p in found && exists j :: 0 <= j < k && lines[j] != "" && t.matches(p, IgnorePattern(lines[j]))
    {
      if lines[k] != "" {
        excluded := AppendMatches(found, IgnorePattern(lines[k]), t, excluded);
      }
      k := k + 1;
    }
    assert forall p :: p in excluded <==> p in found && Ignored(p, lines, t);
    excluded := AppendChildren(excluded, t);
    var listed := SetToList(found - set p | p in excluded);
    var files := FilterDirs(listed, t);
    ghost var foundSeq := FoundPaths(s.globs, t);
    assert forall p :: p in files <==> p in found && p !in excluded && !t.isDir(p);
    assert forall p :: p in found <==> p in foundSeq;
    assert forall p :: p in files <==> TrackedFromGlobs(s, t, p);
    r := files + [DockerIgnore, s.script];
    assert r[..|r| - 2] == files;
  }

  /** The inner loop over `found_paths`: each path the pattern matches is appended. */
  method AppendMatches(found: set<Path>, pattern: string, t: Tree, excluded: seq<Path>) returns (r: seq<Path>)
    ensures forall p :: p in r <==> p in excluded || (p in found && t.matches(p, pattern))
  {
    var rest := found;
    r := excluded;
    while rest != {}
      invariant rest <= found
      invariant forall p :: p in r <==> p in excluded || (p in found - rest && t.matches(p, pattern))
      decreases |rest|
    {
      var f :| f in rest;
      if t.matches(f, pattern) {
        r := r + [f];
      }
      rest := rest - {f};
    }
  }

  /** The loop over a copy of `paths_excluded`: a directory's descendants are appended. */
  method AppendChildren(excluded: seq<Path>, t: Tree) returns (r: seq<Path>)
    ensures forall p :: p in r <==> p in excluded || exists q :: q in excluded && t.isDir(q) && p in t.descendants(q)
  {
    r := excluded;
    var m := 0;
    while m < |excluded|
      invariant 0 <= m <= |excluded|
      invariant forall p :: p in r <==> p in excluded || exists j :: 0 <= j < m && t.isDir(excluded[j]) && p in t.descendants(excluded[j])
    {
      if t.isDir(excluded[m]) {
        r := r + t.descendants(excluded[m]);
      }
      m := m + 1;
    }
  }

  /** `list(a_set)`: its elements once each, in whatever order the set yields them. */
  method SetToList(xs: set<Path>) returns (r: seq<Path>)
    ensures Distinct(r)
    ensures forall p :: p in r <==> p in xs
  {
    var rest := xs;
    r := [];
    while rest != {}
      invariant rest <= xs
      invariant Distinct(r)
      invariant forall p :: p in r <==> p in xs - rest
      decreases |rest|
    {
      var p :| p in rest;
      assert p !in r;
      AppendFresh(r, p);
      r := r + [p];
      rest := rest - {p};
    }
  }

  /** `filter(lambda p: not p.is_dir(), paths)`. */
  method FilterDirs(paths: seq<Path>, t: Tree) returns (r: seq<Path>)
    requires Distinct(paths)
    ensures Distinct(r)
    ensures forall p :: p in r <==> p in paths && !t.isDir(p)
  {
    r := [];
    var i := 0;
    while i < |paths|
      invariant 0 <= i <= |paths|
      invariant Distinct(r)
      invariant forall p :: p in r <==> p in paths[..i] && !t.isDir(p)
    {
      assert paths[..i + 1] == paths[..i] + [paths[i]];
      if !t.isDir(paths[i]) {
        r := r + [paths[i]];
      }
      i := i + 1;
    }
    assert paths[..i] == paths;
  }

  /** `tracked_file_paths`: the list built above, sorted. */
  method GetTrackedFilePaths(s: Step, t: Tree) returns (r: seq<Path>)
    ensures r == TrackedFilePaths(s, t)
  {
    var paths := InitTrackedFilePaths(s, t);
    var spec := TrackedSources(s, t);
    var a, b := paths[..|paths| - 2], spec[..|spec| - 2];
    assert forall p :: p in a <==> TrackedFromGlobs(s, t, p);
    assert forall p :: p in b <==> TrackedFromGlobs(s, t, p);
    DistinctSameElements(a, b);
    assert paths == paths[..|paths| - 2] + [DockerIgnore, s.script];
    assert spec == spec[..|spec| - 2] + [DockerIgnore, s.script];
    SortIgnoresInputOrder(paths, spec);
    r := SortPaths(paths);
  }

  // ---------------------------------------------------------------- files checksum

  /** The `update` calls of `calculate_files_checksum` for files already sorted: each file's path
      string, then its bytes. The mode is not hashed. */
  function FileChunks(files: seq<Path>, t: Tree): (r: seq<string>)
    ensures |r| == 2 * |files|
  {
    if files == [] then [] else [files[0], t.content(files[0])] + FileChunks(files[1..], t)
  }

  /** Files with the same bytes give the same updates. */
  lemma {:induction false} FileChunksSameContent(files: seq<Path>, t1: Tree, t2: Tree)
    requires forall p :: p in files ==> t1.content(p) == t2.content(p)
    ensures FileChunks(files, t1) == FileChunks(files, t2)
    decreases |files|
  {
    if files != [] {
      FileChunksSameContent(files[1..], t1, t2);
    }
  }

  /** `calculate_files_checksum(files)`. */
  function FilesChecksum(files: seq<Path>, t: Tree, h: Hasher): string
  {
    Digest(h, FileChunks(SortPaths(files), t))
  }

  /** `calculate_files_checksum`: the list is sorted (twice), then each path and the file's bytes
      are fed to the hash. */
  method CalculateFilesChecksum(files: seq<Path>, t: Tree, h: Hasher) returns (r: string)
    ensures r == FilesChecksum(files, t, h)
  {
    var sorted := SortPaths(files);
    var order := SortPaths(sorted);
    SortTwice(files);
    var fed := FeedFiles(order, t);
    r := h(fed);
  }

  /** The `update` loop over the sorted files. */
  method FeedFiles(order: seq<Path>, t: Tree) returns (fed: string)
    ensures fed == Flatten(FileChunks(order, t))
  {
    fed := "";
    var i := 0;
    while i < |order|
      invariant 0 <= i <= |order|
      invariant fed + Flatten(FileChunks(order[i..], t)) == Flatten(FileChunks(order, t))
    {
      FeedFile(fed, order[i..], t);
      assert order[i..][1..] == order[i + 1..];
      fed := fed + order[i] + t.content(order[i]);
      i := i + 1;
    }
    assert order[i..] == [];
  }

  lemma FeedFile(fed: string, rest: seq<Path>, t: Tree)
    requires rest != []
    ensures fed + Flatten(FileChunks(rest, t)) == fed + rest[0] + t.content(rest[0]) + Flatten(FileChunks(rest[1..], t))
  {
    FlattenFileChunksCons(rest, t);
  }

  /** The checksum depends on which files are listed and on their bytes, not on the list's order or
      on the files' modes. */
  lemma FilesChecksumIgnoresOrderAndMode(f1: seq<Path>, f2: seq<Path>, t1: Tree, t2: Tree, h: Hasher)
    requires multiset(f1) == multiset(f2)
    requires forall p :: p in f1 ==> t1.content(p) == t2.content(p)
    ensures FilesChecksum(f1, t1, h) == FilesChecksum(f2, t2, h)
  {
    SortIgnoresInputOrder(f1, f2);
    var s := SortPaths(f1);
    assert forall p :: p in s ==> p in multiset(f1);
    FileChunksSameContent(s, t1, t2);
  }

  /** Sorting a sorted list changes nothing. */
  lemma SortTwice(files: seq<Path>)
    ensures SortPaths(SortPaths(files)) == SortPaths(files)
  {
    SortedUnique(SortPaths(SortPaths(files)), SortPaths(files));
  }

  // ---------------------------------------------------------------- overall info and id

  /** `overall_info`. */
  function Info(s: Step, c: Context): (r: OverallInfo)
    ensures r.name == s.name && |r.dependencyStepsIds| == |s.deps| && r.additionalSettings == s.settings
    ensures r.baseStepId.Some? <==> s.baseStep.Some?
    ensures r.dockerImage.Some? <==> RunsInDocker(s)
    decreases s, 1
  {
    var files := TrackedFilePaths(s, c.tree);
    OverallInfo(s.name, files, FilesChecksum(files, c.tree, c.h),
      DependencyIds(s, c),
      if s.baseStep.Some? then Some(Id(s.baseStep.value, c)) else None,
      s.settings,
      if s.baseImage.Some? then Some(AsDict(s.baseImage.value)) else None)
  }

  /** The dependencies' ids, in order. */
  function DependencyIds(s: Step, c: Context): (r: seq<string>)
    ensures |r| == |s.deps|
    decreases s, 0
  {
    seq(|s.deps|, i requires 0 <= i < |s.deps| => Id(s.deps[i], c))
  }

  /** `id`: the lowercased name, two underscores and the hex digest of the info's JSON text. */
  function Id(s: Step, c: Context): string
    decreases s, 2
  {
    Lower(s.name + "__" + c.h(c.json(Info(s, c))))
  }

  predicate IsHexDigit(ch: char) { IsDigit(ch) || 'a' <= ch <= 'f' }

  /** What `hexdigest()` returns: lower-case hexadecimal digits. */
  predicate IsHexDigest(d: string) { forall i :: 0 <= i < |d| ==> IsHexDigit(d[i]) }

  /** The hash of `s`'s info is a hex digest. */
  ghost predicate HexDigestOf(s: Step, c: Context) { IsHexDigest(c.h(c.json(Info(s, c)))) }

  /** The JSON text and the hash do not collide on the two steps' infos. */
  ghost predicate InfosCollisionFree(s1: Step, s2: Step, c: Context)
  {
    var j1, j2 := c.json(Info(s1, c)), c.json(Info(s2, c));
    (j1 == j2 ==> Info(s1, c) == Info(s2, c)) && CollisionFree(c.h, j1, j2)
  }

  /** The id is the lowercased name followed by the digest itself. */
  lemma IdParts(s: Step, c: Context)
    requires HexDigestOf(s, c)
    ensures Id(s, c) == Lower(s.name) + "__" + c.h(c.json(Info(s, c)))
  {
    LowerNameDigest(s.name, c.h(c.json(Info(s, c))));
  }

  lemma LowerNameDigest(n: string, d: string)
    requires IsHexDigest(d)
    ensures Lower(n + "__" + d) == Lower(n) + "__" + d
  {
    HexDigestNotUpper(d);
    LowerOfLower(d);
    LowerOfLower("__");
    LowerAppend(n + "__", d);
    LowerAppend(n, "__");
  }

  lemma HexDigestNotUpper(d: string)
    requires IsHexDigest(d)
    ensures forall i :: 0 <= i < |d| ==> !IsUpper(d[i])
  {
    forall i | 0 <= i < |d| ensures !IsUpper(d[i]) {
      assert IsHexDigit(d[i]);
    }
  }

  /** The info lists the dependencies' ids in order. */
  lemma InfoDependencyId(s: Step, i: nat, c: Context)
    requires i < |s.deps|
    ensures Info(s, c).dependencyStepsIds[i] == Id(s.deps[i], c)
  {
  }

  /** The info names the base step's id. */
  lemma InfoBaseId(s: Step, c: Context)
    requires s.baseStep.Some?
    ensures Info(s, c).baseStepId == Some(Id(s.baseStep.value, c))
  {
  }

  /** Steps of one name whose infos differ get different ids (given no collision). */
  lemma IdSeesInfo(s1: Step, s2: Step, c: Context)
    requires s1.name == s2.name && Info(s1, c) != Info(s2, c)
    requires InfosCollisionFree(s1, s2, c) && HexDigestOf(s1, c) && HexDigestOf(s2, c)
    ensures Id(s1, c) != Id(s2, c)
  {
    IdParts(s1, c);
    IdParts(s2, c);
    var p := Lower(s1.name) + "__";
    var d1, d2 := c.h(c.json(Info(s1, c))), c.h(c.json(Info(s2, c)));
    assert d1 != d2;
    assert (p + d1)[|p|..] == d1 && (p + d2)[|p|..] == d2;
  }

  /** Replacing a dependency by one with another id changes the step's id. */
  lemma DependencyChangesId(s: Step, i: nat, d: Step, c: Context)
    requires i < |s.deps| && Id(d, c) != Id(s.deps[i], c)
    requires InfosCollisionFree(s, s.(deps := s.deps[i := d]), c)
    requires HexDigestOf(s, c) && HexDigestOf(s.(deps := s.deps[i := d]), c)
    ensures Id(s.(deps := s.deps[i := d]), c) != Id(s, c)
  {
    var s' := s.(deps := s.deps[i := d]);
    InfoDependencyId(s', i, c);
    InfoDependencyId(s, i, c);
    IdSeesInfo(s', s, c);
  }

  /** Replacing the base step by one with another id changes the step's id. */
  lemma BaseChangesId(s: Step, b: Step, c: Context)
    requires s.baseStep.Some? && Id(b, c) != Id(s.baseStep.value, c)
    requires InfosCollisionFree(s, s.(baseStep := Some(b)), c)
    requires HexDigestOf(s, c) && HexDigestOf(s.(baseStep := Some(b)), c)
    ensures Id(s.(baseStep := Some(b)), c) != Id(s, c)
  {
    InfoBaseId(s.(baseStep := Some(b)), c);
    InfoBaseId(s, c);
    IdSeesInfo(s.(baseStep := Some(b)), s, c);
  }

  /** An edit to a listed file that keeps every file's size changes the files checksum (given no
      collision). */
  lemma TrackedFileChangesChecksum(files: seq<Path>, t1: Tree, t2: Tree, h: Hasher)
    requires exists p :: p in files && t1.content(p) != t2.content(p)
    requires forall p :: p in files ==> |t1.content(p)| == |t2.content(p)|
    requires CollisionFree(h, Flatten(FileChunks(SortPaths(files), t1)), Flatten(FileChunks(SortPaths(files), t2)))
    ensures FilesChecksum(files, t1, h) != FilesChecksum(files, t2, h)
  {
    var s := SortPaths(files);
    assert forall p :: p in s <==> p in multiset(files);
    UpdatesDiffer(s, t1, t2);
  }

  /** The update streams of two checkouts differ when some file's bytes do and sizes agree. */
  lemma {:induction false} UpdatesDiffer(s: seq<Path>, t1: Tree, t2: Tree)
    requires exists p :: p in s && t1.content(p) != t2.content(p)
    requires forall p :: p in s ==> |t1.content(p)| == |t2.content(p)|
    ensures Flatten(FileChunks(s, t1)) != Flatten(FileChunks(s, t2))
    decreases |s|
  {
    FlattenFileChunksCons(s, t1);
    FlattenFileChunksCons(s, t2);
    var x1, x2 := s[0] + t1.content(s[0]), s[0] + t2.content(s[0]);
    var r1, r2 := Flatten(FileChunks(s[1..], t1)), Flatten(FileChunks(s[1..], t2));
    if t1.content(s[0]) != t2.content(s[0]) {
      assert (x1 + r1)[..|x1|] == x1 && (x2 + r2)[..|x2|] == x2;
      assert x1[|s[0]|..] == t1.content(s[0]) && x2[|s[0]|..] == t2.content(s[0]);
    } else {
      var p :| p in s && t1.content(p) != t2.content(p);
      assert p in s[1..];
      UpdatesDiffer(s[1..], t1, t2);
      assert (x1 + r1)[|x1|..] == r1 && (x2 + r2)[|x2|..] == r2;
    }
  }

  /** The updates of a non-empty list: its first path, that file's bytes, then the rest. */
  lemma FlattenFileChunksCons(s: seq<Path>, t: Tree)
    requires s != []
    ensures Flatten(FileChunks(s, t)) == s[0] + t.content(s[0]) + Flatten(FileChunks(s[1..], t))
  {
    FlattenAppend([s[0], t.content(s[0])], FileChunks(s[1..], t));
    FlattenTwo(s[0], t.content(s[0]));
  }

  lemma FlattenTwo(a: string, b: string)
    ensures Flatten([a, b]) == a + b
  {
    var two, one := [a, b], [a];
    assert one[..0] == [] && Flatten(one) == a;
    assert two[..1] == one;
  }

  // ---------------------------------------------------------------- images and construction

  /** `EnvironmentBuilderStep.result_image`: the image named by the id, for the base image's
      architecture, when the step runs in docker. */
  function EnvResultImage(s: Step, c: Context): (r: Option<DockerImageSpec>)
    ensures r.Some? <==> RunsInDocker(s)
    ensures r.Some? ==> r.value.name == Id(s, c) && r.value.architecture == s.baseImage.value.architecture
  {
    if RunsInDocker(s) then Some(DockerImageSpec(Id(s, c), s.baseImage.value.architecture)) else None
  }

  const NoResultImage := AttributeError("'ArtifactBuilderStep' object has no attribute 'result_image'")

  /** `result_image` looked up on a step: only `EnvironmentBuilderStep` defines it. */
  function ResultImage(s: Step, c: Context): (r: Result<Option<DockerImageSpec>>)
    ensures r.Err? <==> s.kind == Artifact
    ensures r.Ok? ==> r.value == EnvResultImage(s, c)
  {
    if s.kind == Artifact then Err(NoResultImage) else Ok(EnvResultImage(s, c))
  }

  /** A step and the `global_steps_collection` after its construction. */
  datatype Constructed = Constructed(step: Step, collection: Option<seq<Step>>)

  /** The constructor. A step given as base must be an environment step, since its
      `result_image` becomes this step's base image; a cacheable step is appended to the global
      collection when one is given. */
  function NewStep(kind: StepKind, name: string, script: Path, base: BaseArg, deps: seq<Step>,
                   settings: seq<Setting>, cacheable: bool, globs: seq<string>,
                   collection: Option<seq<Step>>, c: Context): (r: Result<Constructed>)
    ensures r.Err? <==> base.StepArg? && base.step.kind == Artifact
    ensures r.Ok? ==> var s := r.value.step;
      && s.kind == kind && s.name == name && s.script == script && s.globs == globs
      && s.deps == deps && s.settings == settings && s.cacheable == cacheable
      && (base.NoBase? ==> s.baseStep.None? && !RunsInDocker(s))
      && (base.ImageArg? ==> s.baseStep.None? && s.baseImage == Some(base.spec))
      && (base.StepArg? ==> s.baseStep == Some(base.step) && s.baseImage == EnvResultImage(base.step, c))
      && r.value.collection == (if collection.Some? && cacheable then Some(collection.value + [s]) else collection)
  {
    if base.StepArg? && base.step.kind == Artifact then Err(NoResultImage)
    else
      var baseStep := if base.StepArg? then Some(base.step) else None;
      var image := match base
        case NoBase => None
        case ImageArg(spec) => Some(spec)
        case StepArg(b) => EnvResultImage(b, c);
      var s := Step(kind, name, script, globs, deps, settings, cacheable, baseStep, image);
      Ok(Constructed(s, if collection.Some? && cacheable then Some(collection.value + [s]) else collection))
  }

  /** Every base step was an environment step and handed down its result image. */
  ghost predicate WellFormed(s: Step, c: Context)
    decreases s
  {
    s.baseStep.Some? ==>
      && s.baseStep.value.kind == Environment
      && s.baseImage == EnvResultImage(s.baseStep.value, c)
      && WellFormed(s.baseStep.value, c)
  }

  /** The image given at the bottom of the chain of base steps, if any. */
  function RootImage(s: Step): Option<DockerImageSpec>
    decreases s
  {
    if s.baseStep.Some? then RootImage(s.baseStep.value) else s.baseImage
  }

  /** A step runs in docker exactly when the bottom of its base chain was given an image, and
      then on that image's architecture. */
  lemma {:induction false} DockerIsInherited(s: Step, c: Context)
    requires WellFormed(s, c)
    ensures RunsInDocker(s) <==> RootImage(s).Some?
    ensures RunsInDocker(s) ==> s.baseImage.value.architecture == RootImage(s).value.architecture
    decreases s
  {
    if s.baseStep.Some? {
      DockerIsInherited(s.baseStep.value, c);
    }
  }

  /** Construction keeps steps well formed. */
  lemma NewStepWellFormed(kind: StepKind, name: string, script: Path, base: BaseArg, deps: seq<Step>,
                          settings: seq<Setting>, cacheable: bool, globs: seq<string>,
                          collection: Option<seq<Step>>, c: Context)
    requires base.StepArg? ==> WellFormed(base.step, c)
    ensures var r := NewStep(kind, name, script, base, deps, settings, cacheable, globs, collection, c);
      r.Ok? ==> WellFormed(r.value.step, c)
  {
  }

  // ---------------------------------------------------------------- cacheable steps

  /** `all_used_cacheable_steps`: the dependencies' lists in order, then the base step's, then the
      step itself when it is cacheable. Shared steps appear once per path to them. */
  function AllUsedCacheable(s: Step): seq<Step>
    decreases s
  {
    Concat(seq(|s.deps|, i requires 0 <= i < |s.deps| => AllUsedCacheable(s.deps[i])))
      + (if s.baseStep.Some? then AllUsedCacheable(s.baseStep.value) else [])
      + (if s.cacheable then [s] else [])
  }

  /** `x` is `s` or a step that `s` uses, directly or not. */
  ghost predicate Within(x: Step, s: Step)
    decreases s
  {
    x == s
    || (exists i :: 0 <= i < |s.deps| && Within(x, s.deps[i]))
    || (s.baseStep.Some? && Within(x, s.baseStep.value))
  }

  /** The list holds exactly the cacheable steps that `s` uses, itself included. */
  lemma {:induction false} AllUsedCacheableMembers(s: Step, x: Step)
    ensures x in AllUsedCacheable(s) <==> x.cacheable && Within(x, s)
    decreases s
  {
    var lists := seq(|s.deps|, i requires 0 <= i < |s.deps| => AllUsedCacheable(s.deps[i]));
    ConcatContains(lists, x);
    forall i | 0 <= i < |s.deps| ensures x in lists[i] <==> x.cacheable && Within(x, s.deps[i]) {
      AllUsedCacheableMembers(s.deps[i], x);
    }
    if s.baseStep.Some? {
      AllUsedCacheableMembers(s.baseStep.value, x);
    }
    if x == s {
    } else if x.cacheable && Within(x, s) {
      if exists i :: 0 <= i < |s.deps| && Within(x, s.deps[i]) {
        var i :| 0 <= i < |s.deps| && Within(x, s.deps[i]);
        assert x in lists[i];
      }
    }
  }

  /** A cacheable step comes last in its own list, after everything it uses. */
  lemma SelfLast(s: Step)
    requires s.cacheable
    ensures var r := AllUsedCacheable(s); |r| > 0 && r[|r| - 1] == s
  {
  }

  /** `Builder.all_used_cacheable_steps`: the lists of the builder's cacheable steps, in order. */
  function BuilderAllUsedCacheable(cacheableSteps: seq<Step>): seq<Step>
  {
    Concat(seq(|cacheableSteps|, i requires 0 <= i < |cacheableSteps| => AllUsedCacheable(cacheableSteps[i])))
  }

  lemma BuilderAllUsedCacheableMembers(cacheableSteps: seq<Step>, x: Step)
    ensures x in BuilderAllUsedCacheable(cacheableSteps) <==>
      x.cacheable && exists i :: 0 <= i < |cacheableSteps| && Within(x, cacheableSteps[i])
  {
    var lists := seq(|cacheableSteps|, i requires 0 <= i < |cacheableSteps| => AllUsedCacheable(cacheableSteps[i]));
    ConcatContains(lists, x);
    forall i | 0 <= i < |cacheableSteps| ensures x in lists[i] <==> x.cacheable && Within(x, cacheableSteps[i]) {
      AllUsedCacheableMembers(cacheableSteps[i], x);
    }
  }

  // ---------------------------------------------------------------- paths, command line, environment

  /** `output_directory`: `<build root>/step_outputs/<id>`. */
  function OutputDir(root: Path, s: Step, c: Context): Path
  {
    JoinPath(JoinPath(root, "step_outputs"), Id(s, c))
  }

  /** `_temp_output_directory`: `~<id>` beside the output directory. */
  function TempOutputDir(root: Path, s: Step, c: Context): Path
  {
    JoinPath(JoinPath(root, "step_outputs"), "~" + Id(s, c))
  }

  /** `_source_root`: `<build root>/step_isolated_source_roots/<id>`. */
  function SourceRootDir(root: Path, s: Step, c: Context): Path
  {
    JoinPath(JoinPath(root, "step_isolated_source_roots"), Id(s, c))
  }

  const InDockerDependencyOutputs: Path := "/tmp/step/dependencies"
  const InDockerSourceRoot: Path := "/tmp/agent_source"
  const InDockerOutput: Path := "/tmp/step/output"

  /** Where the script finds a dependency's output: its output directory, or a mount point of the
      same name inside the container. */
  function DependencyOutput(s: Step, d: Step, root: Path, c: Context): Path
  {
    if RunsInDocker(s) then JoinPath(InDockerDependencyOutputs, Name(OutputDir(root, d, c))) else OutputDir(root, d, c)
  }

  const UnknownInterpreter := UnboundLocalError("local variable 'full_command_args' referenced before assignment")

  /** The interpreter chosen by the script's suffix; any other suffix leaves the variable unbound. */
  function Interpreter(script: Path): (r: Result<string>)
    ensures r.Ok? <==> Suffix(script) in {".ps1", ".sh", ".py"}
    ensures Suffix(script) == ".ps1" ==> r == Ok("powershell")
    ensures Suffix(script) == ".sh" ==> r == Ok("/bin/bash")
    ensures Suffix(script) == ".py" ==> r == Ok("python3")
    ensures r.Err? ==> r.error == UnknownInterpreter
  {
    var suffix := Suffix(script);
    if suffix == ".ps1" then Ok("powershell")
    else if suffix == ".sh" then Ok("/bin/bash")
    else if suffix == ".py" then Ok("python3")
    else Err(UnknownInterpreter)
  }

  /** `_get_command_line_args`. */
  function CommandLineArgs(s: Step, root: Path, c: Context): (r: Result<seq<string>>)
    ensures r.Ok? <==> Interpreter(s.script).Ok?
    ensures r.Err? ==> r.error == UnknownInterpreter
    ensures r.Ok? ==> |r.value| == |s.deps| + 2 && r.value[0] == Interpreter(s.script).value && r.value[1] == s.script
    ensures r.Ok? ==> forall i :: 0 <= i < |s.deps| ==> r.value[i + 2] == DependencyOutput(s, s.deps[i], root, c)
  {
    var shell := Interpreter(s.script);
    if shell.Err? then Err(shell.error)
    else Ok([shell.value, s.script] + seq(|s.deps|, i requires 0 <= i < |s.deps| => DependencyOutput(s, s.deps[i], root, c)))
  }

  /** The value of the last setting named `k` that has one. */
  function LastValue(settings: seq<Setting>, k: string): (r: Option<string>)
    decreases |settings|
  {
    if settings == [] then None
    else
      var last := settings[|settings| - 1];
      if last.name == k && last.value.Some? then last.value else LastValue(settings[..|settings| - 1], k)
  }

  /** A name whose settings are all `None` has no value. */
  lemma {:induction false} LastValueNone(settings: seq<Setting>, k: string)
    requires forall i :: 0 <= i < |settings| && settings[i].name == k ==> settings[i].value.None?
    ensures LastValue(settings, k).None?
    decreases |settings|
  {
    if settings != [] {
      var n := |settings| - 1;
      assert forall i :: 0 <= i < n ==> settings[..n][i] == settings[i];
      LastValueNone(settings[..n], k);
    }
  }

  /** A setting with a value that no later setting of its name overrides gives the value. */
  lemma {:induction false} LastValueIs(settings: seq<Setting>, i: nat)
    requires i < |settings| && settings[i].value.Some?
    requires forall j :: i < j < |settings| && settings[j].name == settings[i].name ==> settings[j].value.None?
    ensures LastValue(settings, settings[i].name) == settings[i].value
    decreases |settings|
  {
    var n := |settings| - 1;
    if i < n {
      assert forall j :: 0 <= j < n ==> settings[..n][j] == settings[j];
      LastValueIs(settings[..n], i);
    }
  }

  /** The settings applied to an environment in order, those set to `None` skipped. */
  function ApplySettings(env: map<string, string>, settings: seq<Setting>): (r: map<string, string>)
    ensures forall k :: k in r <==> k in env || LastValue(settings, k).Some?
    ensures forall k :: k in r ==> r[k] == if LastValue(settings, k).Some? then LastValue(settings, k).value else env[k]
    decreases |settings|
  {
    if settings == [] then env
    else
      var last := settings[|settings| - 1];
      var before := ApplySettings(env, settings[..|settings| - 1]);
      if last.value.None? then before else before[last.name := last.value.value]
  }

  /** The environment of `_run_locally`: the process environment, `STEP_OUTPUT_PATH` set to the
      temporary output, the settings that have a value, and `SOURCE_ROOT` set last. */
  function LocalEnv(s: Step, root: Path, c: Context): (r: map<string, string>)
    ensures "SOURCE_ROOT" in r && r["SOURCE_ROOT"] == SourceRootDir(root, s, c)
    ensures "STEP_OUTPUT_PATH" in r
    ensures forall k :: k != "SOURCE_ROOT" && k != "STEP_OUTPUT_PATH" ==>
      (k in r <==> k in c.environ || LastValue(s.settings, k).Some?)
    ensures forall k :: k != "SOURCE_ROOT" && k != "STEP_OUTPUT_PATH" && k in r ==>
      r[k] == if LastValue(s.settings, k).Some? then LastValue(s.settings, k).value else c.environ[k]
  {
    StepEnv(c.environ, s.settings, TempOutputDir(root, s, c), SourceRootDir(root, s, c))
  }

  /** `environ` with `STEP_OUTPUT_PATH` set to `output`, the settings applied, and `SOURCE_ROOT` set
      to `source`. */
  function StepEnv(environ: map<string, string>, settings: seq<Setting>, output: Path, source: Path): (r: map<string, string>)
    ensures "SOURCE_ROOT" in r && r["SOURCE_ROOT"] == source
    ensures "STEP_OUTPUT_PATH" in r
    ensures forall k :: k != "SOURCE_ROOT" && k != "STEP_OUTPUT_PATH" ==>
      (k in r <==> k in environ || LastValue(settings, k).Some?)
    ensures forall k :: k != "SOURCE_ROOT" && k != "STEP_OUTPUT_PATH" && k in r ==>
      r[k] == if LastValue(settings, k).Some? then LastValue(settings, k).value else environ[k]
  {
    ApplySettings(environ["STEP_OUTPUT_PATH" := output], settings)["SOURCE_ROOT" := source]
  }

  /** Settings set to `None` leave the process environment's value (or its absence) alone. */
  lemma LocalEnvSkipsNone(s: Step, root: Path, c: Context, k: string)
    requires k != "SOURCE_ROOT" && k != "STEP_OUTPUT_PATH"
    requires forall i :: 0 <= i < |s.settings| && s.settings[i].name == k ==> s.settings[i].value.None?
    ensures var env := LocalEnv(s, root, c);
      (k in env <==> k in c.environ) && (k in env ==> env[k] == c.environ[k])
  {
    LastValueNone(s.settings, k);
  }

  /** A setting with a value that no later setting of its name overrides reaches the script, unless
      it is one of the two variables the step sets itself. */
  lemma LocalEnvHasSetting(s: Step, root: Path, c: Context, i: nat)
    requires i < |s.settings| && s.settings[i].value.Some?
    requires s.settings[i].name != "SOURCE_ROOT" && s.settings[i].name != "STEP_OUTPUT_PATH"
    requires forall j :: i < j < |s.settings| && s.settings[j].name == s.settings[i].name ==> s.settings[j].value.None?
    ensures var k := s.settings[i].name; k in LocalEnv(s, root, c) && LocalEnv(s, root, c)[k] == s.settings[i].value.value
  {
    LastValueIs(s.settings, i);
  }

  /** `f"{value}"`: `None` prints as `None`. */
  function PyStr(v: Option<string>): string
  {
    if v.Some? then v.value else "None"
  }

  /** `-e NAME=VALUE` for each setting (a `None` value included), in order. */
  function SettingOptions(settings: seq<Setting>): (r: seq<string>)
    ensures |r| == 2 * |settings|
  {
    if settings == [] then []
    else ["-e", settings[0].name + "=" + PyStr(settings[0].value)] + SettingOptions(settings[1..])
  }

  /** The `-e` options of `_run_in_docker`: the settings, then the three fixed variables. */
  function DockerEnvOptions(s: Step): seq<string>
  {
    SettingOptions(s.settings) + ["-e", "STEP_OUTPUT_PATH=" + InDockerOutput, "-e", "SOURCE_ROOT=" + InDockerSourceRoot, "-e", "AGENT_BUILD_IN_DOCKER=1"]
  }

  /** The `-v` options: the isolated source root, the temporary output, each dependency's output. */
  function VolumeOptions(s: Step, root: Path, c: Context): (r: seq<string>)
    ensures |r| == 4 + 2 * |s.deps|
  {
    ["-v", SourceRootDir(root, s, c) + ":" + InDockerSourceRoot, "-v", TempOutputDir(root, s, c) + ":" + InDockerOutput]
      + DependencyVolumes(s, s.deps, root, c)
  }

  function DependencyVolumes(s: Step, deps: seq<Step>, root: Path, c: Context): (r: seq<string>)
    ensures |r| == 2 * |deps|
  {
    if deps == [] then []
    else ["-v", OutputDir(root, deps[0], c) + ":" + DependencyOutput(s, deps[0], root, c)] + DependencyVolumes(s, deps[1..], root, c)
  }

  const ContainerName := "agent-build-builder-step"

  /** The `docker run` command of `_run_in_docker`, for a step that runs in docker: the words before
      the platform, the platform, the words after it. */
  function DockerRunArgs(s: Step, image: DockerImageSpec, root: Path, c: Context, cmd: seq<string>): seq<string>
  {
    DockerRunHead(s, root, c) + [PlatformValue(AsDockerPlatform(image.architecture))] + DockerRunTail(s, image, cmd)
  }

  function DockerRunHead(s: Step, root: Path, c: Context): seq<string>
  {
    ["docker", "run", "-i", "--name", ContainerName] + VolumeOptions(s, root, c) + ["--platform"]
  }

  function DockerRunTail(s: Step, image: DockerImageSpec, cmd: seq<string>): seq<string>
  {
    DockerEnvOptions(s) + ["--workdir", InDockerSourceRoot, image.name] + cmd
  }

  // ---------------------------------------------------------------- the platform argument as written

  /** An element of the argument list handed to `check_call_with_log`: a string, or a
      `DockerPlatform` enum member, which is not a string. */
  datatype RunArg = Text(text: string) | PlatformMember(platform: DockerPlatform)

  function Texts(words: seq<string>): (r: seq<RunArg>)
    ensures |r| == |words| && forall i :: 0 <= i < |r| ==> r[i] == Text(words[i])
  {
    if words == [] then [] else [Text(words[0])] + Texts(words[1..])
  }

  /** The `docker run` list as `_run_in_docker` writes it: `as_docker_platform` is passed as the enum
      member, without `.value`. */
  function AsWrittenDockerRunArgs(s: Step, image: DockerImageSpec, root: Path, c: Context, cmd: seq<string>): (r: seq<RunArg>)
    ensures |r| == |DockerRunArgs(s, image, root, c, cmd)|
  {
    Texts(DockerRunHead(s, root, c)) + [PlatformMember(AsDockerPlatform(image.architecture))] + Texts(DockerRunTail(s, image, cmd))
  }

  /** Each platform member replaced by its `.value`. */
  function WithValues(args: seq<RunArg>): (r: seq<RunArg>)
    ensures |r| == |args|
    ensures forall i :: 0 <= i < |r| ==> r[i] == (if args[i].PlatformMember? then Text(PlatformValue(args[i].platform)) else args[i])
  {
    if args == [] then []
    else [if args[0].PlatformMember? then Text(PlatformValue(args[0].platform)) else args[0]] + WithValues(args[1..])
  }

  const NotAStringError := TypeError("expected str, bytes or os.PathLike object, not DockerPlatform")

  /** Starting the process: every argument must be a string, else `subprocess` raises `TypeError`
      before anything runs. */
  function ProcessArgs(args: seq<RunArg>): (r: Result<seq<string>>)
    ensures r.Ok? <==> forall i :: 0 <= i < |args| ==> args[i].Text?
    ensures r.Ok? ==> |r.value| == |args| && forall i :: 0 <= i < |args| ==> r.value[i] == args[i].text
    ensures r.Err? ==> r.error == NotAStringError
  {
    if args == [] then Ok([])
    else if args[0].PlatformMember? then Err(NotAStringError)
    else match ProcessArgs(args[1..])
      case Ok(rest) => Ok([args[0].text] + rest)
      case Err(e) => Err(e)
  }

  /** As written, the `docker run` of a step in docker never starts: the platform member is not a
      string. */
  lemma AsWrittenDockerRunRaises(s: Step, image: DockerImageSpec, root: Path, c: Context, cmd: seq<string>)
    ensures ProcessArgs(AsWrittenDockerRunArgs(s, image, root, c, cmd)) == Err(NotAStringError)
  {
    MemberBetweenTexts(DockerRunHead(s, root, c), AsDockerPlatform(image.architecture), DockerRunTail(s, image, cmd));
  }

  lemma MemberBetweenTexts(pre: seq<string>, p: DockerPlatform, post: seq<string>)
    ensures ProcessArgs(Texts(pre) + [PlatformMember(p)] + Texts(post)) == Err(NotAStringError)
  {
    assert (Texts(pre) + [PlatformMember(p)] + Texts(post))[|pre|] == PlatformMember(p);
  }

  /** With `.value` the list holds only strings and is the command `DockerRunArgs` describes. */
  lemma CorrectedDockerRunArgs(s: Step, image: DockerImageSpec, root: Path, c: Context, cmd: seq<string>)
    ensures ProcessArgs(WithValues(AsWrittenDockerRunArgs(s, image, root, c, cmd))) == Ok(DockerRunArgs(s, image, root, c, cmd))
  {
    ValuesBetweenTexts(DockerRunHead(s, root, c), AsDockerPlatform(image.architecture), DockerRunTail(s, image, cmd));
  }

  /** The member between two runs of strings, given its value, makes a list of strings only. */
  lemma ValuesBetweenTexts(pre: seq<string>, p: DockerPlatform, post: seq<string>)
    ensures ProcessArgs(WithValues(Texts(pre) + [PlatformMember(p)] + Texts(post))) == Ok(pre + [PlatformValue(p)] + post)
  {
    var args := Texts(pre) + [PlatformMember(p)] + Texts(post);
    var full := pre + [PlatformValue(p)] + post;
    var w := WithValues(args);
    forall i | 0 <= i < |w| ensures w[i] == Text(full[i]) {
      if i < |pre| {
        assert args[i] == Text(pre[i]);
      } else if i == |pre| {
        assert args[i] == PlatformMember(p);
      } else {
        assert args[i] == Text(post[i - |pre| - 1]);
      }
    }
    var r := ProcessArgs(w);
    assert r.Ok? && r.value == full;
  }
}
