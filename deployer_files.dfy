/** What both generations of environment deployers hash and mount: the deployment script, then
    each used path in the order given, a directory standing for the files below it (in `iterdir`
    order, skipping every `__pycache__` directory). Unlike the later deployment steps, the list is
    not sorted and the paths are hashed as given, that is, under the source root. */
module DeployerFiles {
  import opened Wrappers
  import opened Strings
  import opened Paths
  import opened Hashing
  import opened SourceTree

  const PycacheDir: string := "__pycache__"

  /** All elements of several lists, in order (`result.extend(...)` per list). */
  function Concat<T>(xs: seq<seq<T>>): seq<T>
  {
    if xs == [] then [] else Concat(xs[..|xs| - 1]) + xs[|xs| - 1]
  }

  lemma {:induction false} ConcatContains<T>(xs: seq<seq<T>>, x: T)
    ensures x in Concat(xs) <==> exists i :: 0 <= i < |xs| && x in xs[i]
    decreases |xs|
  {
    if xs != [] {
      var n := |xs| - 1;
      ConcatContains(xs[..n], x);
      assert forall i :: 0 <= i < n ==> xs[..n][i] == xs[i];
    }
  }

  /** `get_dir_files`: a file stands for itself; a directory for the files below it, in listing
      order, except that a `__pycache__` directory contributes nothing. */
  function NodeFiles(n: Node): seq<Path>
    decreases n
  {
    match n
    case File(p) => [p]
    case Dir(p, cs) => if Name(p) == PycacheDir then [] else Concat(seq(|cs|, i requires 0 <= i < |cs| => NodeFiles(cs[i])))
  }

  /** `p` is a file reached from `n` without entering a `__pycache__` directory. */
  ghost predicate Reaches(n: Node, p: Path)
    decreases n
  {
    match n
    case File(q) => q == p
    case Dir(q, cs) => Name(q) != PycacheDir && exists i :: 0 <= i < |cs| && Reaches(cs[i], p)
  }

  /** The files listed below a node are exactly the files reachable outside `__pycache__`. */
  lemma {:induction false} NodeFilesReaches(n: Node, p: Path)
    ensures p in NodeFiles(n) <==> Reaches(n, p)
    decreases n
  {
    match n
    case File(q) =>
    case Dir(q, cs) =>
      if Name(q) != PycacheDir {
        var xs := seq(|cs|, i requires 0 <= i < |cs| => NodeFiles(cs[i]));
        ConcatContains(xs, p);
        forall i | 0 <= i < |cs| ensures p in xs[i] <==> Reaches(cs[i], p) {
          NodeFilesReaches(cs[i], p);
        }
      }
  }

  /** One entry of the used-files list: a directory is replaced by its files. */
  function PathFiles(p: Path, t: Tree): seq<Path>
  {
    if t.isDir(p) then NodeFiles(t.node(p)) else [p]
  }

  function PathsFiles(used: seq<Path>, t: Tree): (r: seq<seq<Path>>)
    ensures |r| == |used| && forall i :: 0 <= i < |used| ==> r[i] == PathFiles(used[i], t)
  {
    seq(|used|, i requires 0 <= i < |used| => PathFiles(used[i], t))
  }

  /** `_get_used_files`. */
  function DeployerUsedFiles(script: Path, used: seq<Path>, t: Tree): seq<Path>
  {
    [script] + Concat(PathsFiles(used, t))
  }

  /** The script comes first, and every other entry is a used plain file or a file reached below a
      used directory; the converse holds too. */
  lemma DeployerUsedFilesMembers(script: Path, used: seq<Path>, t: Tree, p: Path)
    ensures DeployerUsedFiles(script, used, t)[0] == script
    ensures p in DeployerUsedFiles(script, used, t) <==>
      p == script || exists i :: 0 <= i < |used| && (if t.isDir(used[i]) then Reaches(t.node(used[i]), p) else p == used[i])
  {
    var xs := PathsFiles(used, t);
    ConcatContains(xs, p);
    forall i | 0 <= i < |used|
      ensures p in xs[i] <==> (if t.isDir(used[i]) then Reaches(t.node(used[i]), p) else p == used[i])
    {
      if t.isDir(used[i]) { NodeFilesReaches(t.node(used[i]), p); }
    }
  }

  /** Two checkouts that agree on which used paths are directories and on the walks below them. */
  ghost predicate SameLayout(used: seq<Path>, t1: Tree, t2: Tree)
  {
    forall i :: 0 <= i < |used| ==> t1.isDir(used[i]) == t2.isDir(used[i]) && t1.node(used[i]) == t2.node(used[i])
  }

  lemma DeployerUsedFilesSameLayout(script: Path, used: seq<Path>, t1: Tree, t2: Tree)
    requires SameLayout(used, t1, t2)
    ensures DeployerUsedFiles(script, used, t1) == DeployerUsedFiles(script, used, t2)
  {
    assert PathsFiles(used, t1) == PathsFiles(used, t2);
  }

  /** The updates for one file: its path under the source root, `str(st_mode)`, its bytes. */
  function DeployerChunks(files: seq<Path>, root: Path, t: Tree): (r: seq<string>)
    ensures |r| == 3 * |files|
  {
    if files == [] then [] else
      var p := files[|files| - 1];
      DeployerChunks(files[..|files| - 1], root, t) + [JoinPath(root, p), NatToString(t.mode(p)), t.content(p)]
  }

  /** `get_used_files_checksum` on a computed file list. */
  function DeployerChecksum(files: seq<Path>, root: Path, t: Tree, h: Hasher): string
  {
    Digest(h, DeployerChunks(files, root, t))
  }

  /** Only the listed files' modes and bytes matter. */
  lemma {:induction false} DeployerChunksSameFiles(files: seq<Path>, root: Path, t1: Tree, t2: Tree)
    requires SameFiles(files, t1, t2)
    ensures DeployerChunks(files, root, t1) == DeployerChunks(files, root, t2)
    decreases |files|
  {
    if files != [] {
      var n := |files| - 1;
      assert files[n] in files;
      assert forall p :: p in files[..n] ==> p in files;
      DeployerChunksSameFiles(files[..n], root, t1, t2);
    }
  }

  /** The checksum of a deployer's files depends on nothing but the layout of its used paths and the
      modes and bytes of the files listed. */
  lemma DeployerChecksumSameInputs(script: Path, used: seq<Path>, root: Path, t1: Tree, t2: Tree, h: Hasher)
    requires SameLayout(used, t1, t2) && SameFiles(DeployerUsedFiles(script, used, t1), t1, t2)
    ensures DeployerUsedFiles(script, used, t1) == DeployerUsedFiles(script, used, t2)
    ensures var files := DeployerUsedFiles(script, used, t1);
      DeployerChecksum(files, root, t1, h) == DeployerChecksum(files, root, t2, h)
  {
    DeployerUsedFilesSameLayout(script, used, t1, t2);
    DeployerChunksSameFiles(DeployerUsedFiles(script, used, t1), root, t1, t2);
  }

  /** A file appended to the list adds its three updates at the end. */
  lemma {:induction false} DeployerChunksAppend(files: seq<Path>, p: Path, root: Path, t: Tree)
    ensures DeployerChunks(files + [p], root, t) == DeployerChunks(files, root, t) + [JoinPath(root, p), NatToString(t.mode(p)), t.content(p)]
  {
    assert (files + [p])[..|files|] == files;
  }

  lemma FeedOneFile(files: seq<Path>, i: nat, root: Path, t: Tree)
    requires i < |files|
    ensures var p := files[i];
      Flatten(DeployerChunks(files[..i + 1], root, t)) == Flatten(DeployerChunks(files[..i], root, t)) + JoinPath(root, p) + NatToString(t.mode(p)) + t.content(p)
  {
    var p := files[i];
    assert files[..i + 1] == files[..i] + [p];
    DeployerChunksAppend(files[..i], p, root, t);
    FlattenAppend(DeployerChunks(files[..i], root, t), [JoinPath(root, p), NatToString(t.mode(p)), t.content(p)]);
    FlattenThree(JoinPath(root, p), NatToString(t.mode(p)), t.content(p));
  }

  /** The local run of a deployment script: `powershell` for a `.ps1` script, else the `bash` found
      on the path, then the script under the source root, then the cache directory when one is given. */
  function ScriptCommand(script: Path, cacheDir: Option<Path>, m: Machine): (r: seq<string>)
    ensures |r| == (if cacheDir.Some? then 3 else 2)
    ensures r[0] == (if Suffix(script) == ".ps1" then "powershell" else m.bash)
    ensures r[1] == JoinPath(m.root, script)
    ensures cacheDir.Some? ==> r[2] == cacheDir.value
  {
    var shell := if Suffix(script) == ".ps1" then "powershell" else m.bash;
    [shell, JoinPath(m.root, script)] + (if cacheDir.Some? then [cacheDir.value] else [])
  }

  /** Every deployer image name starts with this text. */
  const ImagePrefix: string := "scalyr-build-deployer-"

  lemma LowerImagePrefix()
    ensures Lower(ImagePrefix) == ImagePrefix
  {
    forall i | 0 <= i < |ImagePrefix| ensures !IsUpper(ImagePrefix[i]) {
      assert ImagePrefix[i] in "scalyr-buildepo";
    }
    LowerOfLower(ImagePrefix);
  }

  /** `f"scalyr-build-deployer-{name}-{checksum}-{tail}".lower()`, lowered piece by piece. */
  lemma LowerImageName(name: string, checksum: string, tail: string)
    ensures Lower(ImagePrefix + name + "-" + checksum + "-" + tail) == ImagePrefix + Lower(name) + "-" + Lower(checksum) + "-" + Lower(tail)
  {
    var x1 := ImagePrefix + name;
    var x2 := x1 + "-";
    var x3 := x2 + checksum;
    var x4 := x3 + "-";
    assert Lower(x1) == ImagePrefix + Lower(name) by { LowerAppend(ImagePrefix, name); LowerImagePrefix(); }
    assert Lower(x2) == Lower(x1) + "-" by { LowerAppend(x1, "-"); LowerOfLower("-"); }
    assert Lower(x3) == Lower(x2) + Lower(checksum) by { LowerAppend(x2, checksum); }
    assert Lower(x4) == Lower(x3) + "-" by { LowerAppend(x3, "-"); LowerOfLower("-"); }
    assert Lower(x4 + tail) == Lower(x4) + Lower(tail) by { LowerAppend(x4, tail); }
  }

  /** The checksum part of an image name is recovered from the whole, the other parts being fixed. */
  lemma ChecksumPartDetermined(name: string, c1: string, c2: string, tail: string)
    ensures ImagePrefix + name + "-" + c1 + "-" + tail == ImagePrefix + name + "-" + c2 + "-" + tail <==> c1 == c2
  {
    var pre := ImagePrefix + name + "-";
    var r1, r2 := pre + c1 + "-" + tail, pre + c2 + "-" + tail;
    if r1 == r2 {
      assert |c1| == |c2|;
      assert r1[|pre|..|pre| + |c1|] == c1;
      assert r2[|pre|..|pre| + |c2|] == c2;
    }
  }

  /** `get_dir_files`, with its loop over the children and its recursion into directories. */
  method CollectDirFiles(n: Node) returns (r: seq<Path>)
    requires n.Dir?
    ensures r == NodeFiles(n)
    decreases n
  {
    if Name(n.path) == PycacheDir {
      return [];
    }
    var cs := n.children;
    ghost var xs := seq(|cs|, i requires 0 <= i < |cs| => NodeFiles(cs[i]));
    r := [];
    var i := 0;
    while i < |cs|
      invariant 0 <= i <= |cs|
      invariant r == Concat(xs[..i])
    {
      var child := cs[i];
      var files: seq<Path>;
      if child.Dir? {
        files := CollectDirFiles(child);
      } else {
        files := [child.path];
      }
      assert files == xs[i];
      assert xs[..i + 1][..i] == xs[..i];
      r := r + files;
      i := i + 1;
    }
    assert xs[..i] == xs;
  }

  /** One used path: `get_dir_files` for a directory, else the path itself. */
  method CollectPathFiles(p: Path, t: Tree) returns (files: seq<Path>)
    ensures files == PathFiles(p, t)
  {
    if t.isDir(p) {
      var n := t.node(p);
      if n.Dir? {
        files := CollectDirFiles(n);
      } else {
        files := [n.path];
      }
    } else {
      files := [p];
    }
  }

  /** The `for path in self._used_files` loop of `_get_used_files`. */
  method CollectUsedFiles(script: Path, used: seq<Path>, t: Tree) returns (r: seq<Path>)
    ensures r == DeployerUsedFiles(script, used, t)
  {
    ghost var xs := PathsFiles(used, t);
    var found: seq<Path> := [];
    var i := 0;
    while i < |used|
      invariant 0 <= i <= |used|
      invariant found == Concat(xs[..i])
    {
      var files := CollectPathFiles(used[i], t);
      assert xs[..i + 1][..i] == xs[..i];
      found := found + files;
      i := i + 1;
    }
    assert xs[..i] == xs;
    r := [script] + found;
  }

  /** The `sha256.update` loop of `get_used_files_checksum`. */
  method HashFiles(files: seq<Path>, root: Path, t: Tree, h: Hasher) returns (r: string)
    ensures r == DeployerChecksum(files, root, t, h)
  {
    var fed := "";
    var i := 0;
    while i < |files|
      invariant 0 <= i <= |files|
      invariant fed == Flatten(DeployerChunks(files[..i], root, t))
    {
      var p := files[i];
      FeedOneFile(files, i, root, t);
      fed := fed + JoinPath(root, p) + NatToString(t.mode(p)) + t.content(p);
      i := i + 1;
    }
    assert files[..i] == files;
    r := h(fed);
  }
}
