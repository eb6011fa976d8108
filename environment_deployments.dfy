/** agent_tools/environment_deployments.py: deployment steps chained into deployments.
    A step is a script plus the files it uses; its checksum covers those files (sorted) and is
    seeded with the previous step's checksum; its names are cache keys and Docker image tags. */
module EnvironmentDeployments {
  import opened Wrappers
  import opened Strings
  import opened Paths
  import opened Hashing
  import opened SourceTree
  import opened DockerHost
  import opened ToolsConstants
  import DeployerFiles

  /** A `DeploymentStep` subclass: its class name, `SCRIPT_PATH` and `USED_FILES` globs (root-relative). */
  datatype StepClass = StepClass(className: string, scriptPath: Path, usedFiles: seq<string>)

  // ---------------------------------------------------------------------------------------------
  // The step name: `re.sub(r'(?<!^)(?=[A-Z])', '_', class_name).lower()`.

  /** An `_` inserted before every upper-case letter that is not at the start of the text. */
  function Underscored(s: string, atStart: bool): (r: string)
    ensures |r| >= |s|
  {
    if s == [] then [] else (if IsUpper(s[0]) && !atStart then "_" else "") + [s[0]] + Underscored(s[1..], false)
  }

  function SnakeName(className: string): (r: string)
    ensures forall i :: 0 <= i < |r| ==> !IsUpper(r[i])
  {
    Lower(Underscored(className, true))
  }

  function UpperChar(c: char): char { if IsLower(c) then (c as int - 32) as char else c }

  /** The inverse direction: drop each `_` and capitalise the letter after it and the first letter. */
  function CamelName(s: string, up: bool): string
  {
    if s == [] then [] else if s[0] == '_' then CamelName(s[1..], true)
    else [if up then UpperChar(s[0]) else s[0]] + CamelName(s[1..], false)
  }

  predicate IsAlnum(c: char) { IsUpper(c) || IsLower(c) || IsDigit(c) }

  /** A class name spelled in CapWords (letters and digits, starting with a capital). */
  predicate IsCapWords(n: string) { |n| > 0 && IsUpper(n[0]) && forall i :: 0 <= i < |n| ==> IsAlnum(n[i]) }

  lemma LowerCons(c: char, rest: string)
    ensures Lower([c] + rest) == [LowerChar(c)] + Lower(rest)
  {
    assert ([c] + rest)[1..] == rest;
  }

  lemma CamelCons(c: char, rest: string, up: bool)
    requires c != '_'
    ensures CamelName([c] + rest, up) == [if up then UpperChar(c) else c] + CamelName(rest, false)
  {
    assert ([c] + rest)[1..] == rest;
  }

  lemma UnderscoredCons(c: char, tail: string, atStart: bool)
    ensures Underscored([c] + tail, atStart) == (if IsUpper(c) && !atStart then "_" else "") + [c] + Underscored(tail, false)
  {
    assert ([c] + tail)[1..] == tail;
  }

  /** An upper-case letter inside the name: its `_` marks the capital. */
  lemma CamelOfSnakeBreak(c: char, tail: string)
    requires IsUpper(c)
    requires CamelName(Lower(Underscored(tail, false)), false) == tail
    ensures CamelName(Lower("_" + [c] + Underscored(tail, false)), false) == [c] + tail
  {
    var rest := Underscored(tail, false);
    var lc := LowerChar(c);
    var x := [lc] + Lower(rest);
    assert UpperChar(lc) == c;
    assert "_" + [c] + rest == ['_'] + ([c] + rest);
    LowerCons('_', [c] + rest);
    LowerCons(c, rest);
    assert Lower("_" + [c] + rest) == ['_'] + x;
    CamelUnderscore(x);
    CamelCons(lc, Lower(rest), true);
  }

  lemma CamelUnderscore(x: string)
    ensures CamelName(['_'] + x, false) == CamelName(x, true)
  {
    assert (['_'] + x)[1..] == x;
  }

  /** A letter or digit that gets no `_`: a capital at the start, or any other character. */
  lemma CamelOfSnakePlain(c: char, tail: string, atStart: bool)
    requires IsAlnum(c) && (atStart <==> IsUpper(c))
    requires CamelName(Lower(Underscored(tail, false)), false) == tail
    ensures CamelName(Lower([c] + Underscored(tail, false)), atStart) == [c] + tail
  {
    var rest := Underscored(tail, false);
    LowerCons(c, rest);
    CamelCons(LowerChar(c), Lower(rest), atStart);
  }

  /** One character in front of a tail whose snake name already reverses. */
  lemma CamelOfSnakeCons(c: char, tail: string, atStart: bool)
    requires IsAlnum(c) && (atStart ==> IsUpper(c))
    requires CamelName(Lower(Underscored(tail, false)), false) == tail
    ensures CamelName(Lower(Underscored([c] + tail, atStart)), atStart) == [c] + tail
  {
    UnderscoredCons(c, tail, atStart);
    if IsUpper(c) && !atStart {
      CamelOfSnakeBreak(c, tail);
    } else {
      assert "" + [c] + Underscored(tail, false) == [c] + Underscored(tail, false);
      CamelOfSnakePlain(c, tail, atStart);
    }
  }

  lemma {:induction false} CamelOfSnake(s: string, atStart: bool)
    requires forall i :: 0 <= i < |s| ==> IsAlnum(s[i])
    requires atStart && s != [] ==> IsUpper(s[0])
    ensures CamelName(Lower(Underscored(s, atStart)), atStart) == s
  {
    if s != [] {
      var tail := s[1..];
      assert forall i :: 0 <= i < |tail| ==> IsAlnum(tail[i]) by {
        forall i | 0 <= i < |tail| ensures IsAlnum(tail[i]) { assert tail[i] == s[i + 1]; }
      }
      CamelOfSnake(tail, false);
      assert IsAlnum(s[0]);
      CamelOfSnakeCons(s[0], tail, atStart);
      assert s == [s[0]] + tail;
    }
  }

  /** The step name is reversible for CapWords class names: no two such classes share a step name. */
  lemma SnakeNameRoundTrip(className: string)
    requires IsCapWords(className)
    ensures CamelName(SnakeName(className), true) == className
  {
    CamelOfSnake(className, true);
  }

  function StepName(c: StepClass): (r: string)
    ensures forall i :: 0 <= i < |r| ==> !IsUpper(r[i])
  {
    SnakeName(c.className)
  }

  // ---------------------------------------------------------------------------------------------
  // Steps and their chain.

  /** A constructed step. `baseDockerImage` is the value the constructor settled on; `checksum` is the
      value the `checksum` property has for the checkout the step is used with (see `StepChecksumCurrent`). */
  datatype Step = Step(cls: StepClass, arch: Architecture, baseDockerImage: Option<string>, previous: Option<Step>, checksum: string)

  /** Python truthiness of an optional string. */
  predicate Truthy(s: Option<string>) { s.Some? && s.value != "" }

  function InitialDockerImage(s: Step): Option<string>
  {
    if s.previous.None? then s.baseDockerImage else InitialDockerImage(s.previous.value)
  }

  predicate InDocker(s: Step) { InitialDockerImage(s).Some? }

  /** The first step of the chain that ends in `s`. */
  function First(s: Step): (f: Step)
    ensures f.previous.None?
  {
    if s.previous.None? then s else First(s.previous.value)
  }

  /** `initial_docker_image` is the base image of the first step of the chain. */
  lemma {:induction false} InitialIsFirstBase(s: Step)
    ensures InitialDockerImage(s) == First(s).baseDockerImage
    ensures InDocker(s) <==> First(s).baseDockerImage.Some?
  {
    if s.previous.Some? { InitialIsFirstBase(s.previous.value); }
  }

  // ---------------------------------------------------------------------------------------------
  // The checksum.

  /** `_get_used_files`: the script and every glob match, sorted. */
  function UsedFiles(c: StepClass, t: Tree): seq<Path>
  {
    SortPaths([c.scriptPath] + Globbed(c.usedFiles, t))
  }

  /** The updates for one file: root-relative path, `str(st_mode)`, bytes. */
  function FileChunk(p: Path, t: Tree): seq<string> { [p, NatToString(t.mode(p)), t.content(p)] }

  function FileChunks(files: seq<Path>, t: Tree): (r: seq<string>)
    ensures |r| == 3 * |files|
  {
    if files == [] then [] else FileChunks(files[..|files| - 1], t) + FileChunk(files[|files| - 1], t)
  }

  /** `if additional_seed: sha256.update(additional_seed)`. */
  function SeedChunks(seed: Option<string>): (r: seq<string>)
    ensures r == (if Truthy(seed) then [seed.value] else [])
  {
    if Truthy(seed) then [seed.value] else []
  }

  /** `get_used_files_checksum`. */
  function UsedFilesChecksum(c: StepClass, t: Tree, h: Hasher, seed: Option<string>): string
  {
    Digest(h, FileChunks(UsedFiles(c, t), t) + SeedChunks(seed))
  }

  function PreviousChecksum(prev: Option<Step>): Option<string>
  {
    if prev.Some? then Some(prev.value.checksum) else None
  }

  /** `get_used_files_checksum` in the checkout `m`, as a function of the class and the seed. */
  function UsedFilesChecksumIn(m: Machine): (StepClass, Option<string>) -> string
  {
    (c: StepClass, seed: Option<string>) => UsedFilesChecksum(c, m.tree, m.h, seed)
  }

  /** The checksum of a chain of steps, each step's own checksum computed by `f` from its class and
      the checksum of the step before it. */
  function ChainChecksum(s: Step, f: (StepClass, Option<string>) -> string): string
  {
    f(s.cls, if s.previous.Some? then Some(ChainChecksum(s.previous.value, f)) else None)
  }

  /** The `checksum` property, evaluated afresh: seeded with the previous step's `checksum`. */
  function Checksum(s: Step, m: Machine): string
  {
    ChainChecksum(s, UsedFilesChecksumIn(m))
  }

  /** The step holds the checksum of its used files in the checkout `m`, seeded with its predecessor's. */
  predicate StepChecksumCurrent(s: Step, m: Machine)
  {
    s.checksum == UsedFilesChecksum(s.cls, m.tree, m.h, PreviousChecksum(s.previous))
  }

  /** The order globs yield their matches in does not matter, and only the mode and bytes of the
      used files of the whole chain do. */
  ghost predicate SameInputs(s: Step, t1: Tree, t2: Tree)
    decreases s
  {
    && SameGlobs(s.cls.usedFiles, t1, t2)
    && SameFiles(UsedFiles(s.cls, t1), t1, t2)
    && (s.previous.Some? ==> SameInputs(s.previous.value, t1, t2))
  }

  lemma UsedFilesSameInputs(c: StepClass, t1: Tree, t2: Tree)
    requires SameGlobs(c.usedFiles, t1, t2)
    ensures UsedFiles(c, t1) == UsedFiles(c, t2)
  {
    GlobbedSameElements(c.usedFiles, t1, t2);
    SortIgnoresInputOrder([c.scriptPath] + Globbed(c.usedFiles, t1), [c.scriptPath] + Globbed(c.usedFiles, t2));
  }

  lemma {:induction false} FileChunksSameFiles(files: seq<Path>, t1: Tree, t2: Tree)
    requires SameFiles(files, t1, t2)
    ensures FileChunks(files, t1) == FileChunks(files, t2)
    decreases |files|
  {
    if files != [] {
      var n := |files| - 1;
      assert files[n] in files;
      assert forall p :: p in files[..n] ==> p in files;
      FileChunksSameFiles(files[..n], t1, t2);
    }
  }

  lemma {:induction false} ChecksumDependsOnlyOnUsedFiles(s: Step, m1: Machine, m2: Machine)
    requires m1.h == m2.h
    requires SameInputs(s, m1.tree, m2.tree)
    ensures Checksum(s, m1) == Checksum(s, m2)
    decreases s
  {
    UsedFilesSameInputs(s.cls, m1.tree, m2.tree);
    FileChunksSameFiles(UsedFiles(s.cls, m1.tree), m1.tree, m2.tree);
    if s.previous.Some? { ChecksumDependsOnlyOnUsedFiles(s.previous.value, m1, m2); }
  }

  /** A change of the previous step's checksum reaches this step's checksum (the hash not colliding). */
  lemma ChecksumPropagates(c: StepClass, t: Tree, h: Hasher, seed1: string, seed2: string)
    requires seed1 != "" && seed2 != "" && seed1 != seed2
    requires CollisionFree(h, Flatten(FileChunks(UsedFiles(c, t), t) + [seed1]), Flatten(FileChunks(UsedFiles(c, t), t) + [seed2]))
    ensures UsedFilesChecksum(c, t, h, Some(seed1)) != UsedFilesChecksum(c, t, h, Some(seed2))
  {
    LastChunkChangesDigest(h, FileChunks(UsedFiles(c, t), t), seed1, seed2);
  }

  /** An edit to the bytes of a used file that keeps every used file's mode and size changes the
      step's checksum (the hash not colliding). */
  lemma UsedFileEditChangesChecksum(c: StepClass, t1: Tree, t2: Tree, h: Hasher, seed: Option<string>)
    requires SameGlobs(c.usedFiles, t1, t2)
    requires forall p :: p in UsedFiles(c, t1) ==> t1.mode(p) == t2.mode(p) && |t1.content(p)| == |t2.content(p)|
    requires exists p :: p in UsedFiles(c, t1) && t1.content(p) != t2.content(p)
    requires var files := UsedFiles(c, t1);
      CollisionFree(h, Flatten(FileChunks(files, t1) + SeedChunks(seed)), Flatten(FileChunks(files, t2) + SeedChunks(seed)))
    ensures UsedFilesChecksum(c, t1, h, seed) != UsedFilesChecksum(c, t2, h, seed)
  {
    var files := UsedFiles(c, t1);
    UsedFilesSameInputs(c, t1, t2);
    FileUpdatesDiffer(files, t1, t2);
    FeedSeed(FileChunks(files, t1), seed);
    FeedSeed(FileChunks(files, t2), seed);
    var f1, f2 := Flatten(FileChunks(files, t1)), Flatten(FileChunks(files, t2));
    var x := if Truthy(seed) then seed.value else "";
    assert (f1 + x)[..|f1|] == f1 && (f2 + x)[..|f2|] == f2;
  }

  /** The update streams of two checkouts have the same length when the files' modes and sizes agree,
      and differ when also some file's bytes do. */
  lemma {:induction false} FileUpdatesDiffer(s: seq<Path>, t1: Tree, t2: Tree)
    requires forall p :: p in s ==> t1.mode(p) == t2.mode(p) && |t1.content(p)| == |t2.content(p)|
    ensures |Flatten(FileChunks(s, t1))| == |Flatten(FileChunks(s, t2))|
    ensures (exists p :: p in s && t1.content(p) != t2.content(p)) ==> Flatten(FileChunks(s, t1)) != Flatten(FileChunks(s, t2))
    decreases |s|
  {
    if s != [] {
      var n := |s| - 1;
      assert forall p :: p in s[..n] ==> p in s;
      FileUpdatesDiffer(s[..n], t1, t2);
      LastFileUpdatesDiffer(s, t1, t2);
    }
  }

  /** The step of `FileUpdatesDiffer`: the last file's updates follow those of the files before it. */
  lemma LastFileUpdatesDiffer(s: seq<Path>, t1: Tree, t2: Tree)
    requires s != []
    requires forall p :: p in s ==> t1.mode(p) == t2.mode(p) && |t1.content(p)| == |t2.content(p)|
    requires var a1, a2 := Flatten(FileChunks(s[..|s| - 1], t1)), Flatten(FileChunks(s[..|s| - 1], t2));
      |a1| == |a2| && ((exists p :: p in s[..|s| - 1] && t1.content(p) != t2.content(p)) ==> a1 != a2)
    ensures |Flatten(FileChunks(s, t1))| == |Flatten(FileChunks(s, t2))|
    ensures (exists p :: p in s && t1.content(p) != t2.content(p)) ==> Flatten(FileChunks(s, t1)) != Flatten(FileChunks(s, t2))
  {
    var n := |s| - 1;
    assert s[n] in s;
    LastFileFed(s, t1);
    LastFileFed(s, t2);
    SameLengthAppends(Flatten(FileChunks(s[..n], t1)), Flatten(FileChunks(s[..n], t2)), s[n] + NatToString(t1.mode(s[n])),
                      t1.content(s[n]), t2.content(s[n]));
    if exists p :: p in s && t1.content(p) != t2.content(p) {
      var p :| p in s && t1.content(p) != t2.content(p);
      if p != s[n] { assert p in s[..n]; }
    }
  }

  /** The updates of a non-empty list: those of all but its last file, then the last file's path,
      mode and bytes. */
  lemma LastFileFed(s: seq<Path>, t: Tree)
    requires s != []
    ensures var n := |s| - 1;
      Flatten(FileChunks(s, t)) == Flatten(FileChunks(s[..n], t)) + (s[n] + NatToString(t.mode(s[n])) + t.content(s[n]))
  {
    var n := |s| - 1;
    assert FileChunks(s, t) == FileChunks(s[..n], t) + FileChunk(s[n], t);
    FlattenAppend(FileChunks(s[..n], t), FileChunk(s[n], t));
    FlattenThree(s[n], NatToString(t.mode(s[n])), t.content(s[n]));
  }

  /** Two strings made of equally long parts are equal only when their parts are. */
  lemma SameLengthAppends(a1: string, a2: string, q: string, x1: string, x2: string)
    requires |a1| == |a2| && |x1| == |x2|
    ensures |a1 + (q + x1)| == |a2 + (q + x2)|
    ensures a1 + (q + x1) == a2 + (q + x2) ==> a1 == a2 && x1 == x2
  {
    if a1 + (q + x1) == a2 + (q + x2) {
      assert (a1 + (q + x1))[..|a1|] == a1 && (a2 + (q + x2))[..|a2|] == a2;
      assert (a1 + (q + x1))[|a1|..] == q + x1 && (a2 + (q + x2))[|a2|..] == q + x2;
      assert (q + x1)[|q|..] == x1 && (q + x2)[|q|..] == x2;
    }
  }

  /** An edit to a used file of one step reaches the next step: the first step's checksum changes,
      so does the checksum of the step built on it and with it its cache key, although nothing the
      second step uses changed (the hash not colliding). */
  lemma FileEditReachesNextStep(a1: Step, a2: Step, b1: Step, b2: Step, m1: Machine, m2: Machine)
    requires m1.h == m2.h
    requires StepChecksumCurrent(a1, m1) && StepChecksumCurrent(a2, m2)
    requires a1.cls == a2.cls && PreviousChecksum(a1.previous) == PreviousChecksum(a2.previous)
    requires SameGlobs(a1.cls.usedFiles, m1.tree, m2.tree)
    requires forall p :: p in UsedFiles(a1.cls, m1.tree) ==>
      m1.tree.mode(p) == m2.tree.mode(p) && |m1.tree.content(p)| == |m2.tree.content(p)|
    requires exists p :: p in UsedFiles(a1.cls, m1.tree) && m1.tree.content(p) != m2.tree.content(p)
    requires var files, seed := UsedFiles(a1.cls, m1.tree), PreviousChecksum(a1.previous);
      CollisionFree(m1.h, Flatten(FileChunks(files, m1.tree) + SeedChunks(seed)), Flatten(FileChunks(files, m2.tree) + SeedChunks(seed)))
    requires a1.checksum != "" && a2.checksum != ""
    requires StepChecksumCurrent(b1, m1) && StepChecksumCurrent(b2, m2)
    requires b1.previous == Some(a1) && b2.previous == Some(a2)
    requires b1.cls == b2.cls && b1.arch == b2.arch && InitialDockerImage(b1) == InitialDockerImage(b2)
    requires SameGlobs(b1.cls.usedFiles, m1.tree, m2.tree) && SameFiles(UsedFiles(b1.cls, m1.tree), m1.tree, m2.tree)
    requires var pre := FileChunks(UsedFiles(b1.cls, m1.tree), m1.tree);
      CollisionFree(m1.h, Flatten(pre + [a1.checksum]), Flatten(pre + [a2.checksum]))
    ensures a1.checksum != a2.checksum
    ensures b1.checksum != b2.checksum && CacheName(b1) != CacheName(b2)
  {
    UsedFileEditChangesChecksum(a1.cls, m1.tree, m2.tree, m1.h, PreviousChecksum(a1.previous));
    UsedFilesSameInputs(b1.cls, m1.tree, m2.tree);
    FileChunksSameFiles(UsedFiles(b1.cls, m1.tree), m1.tree, m2.tree);
    assert b2.checksum == UsedFilesChecksum(b1.cls, m1.tree, m1.h, Some(a2.checksum));
    ChecksumPropagates(b1.cls, m1.tree, m1.h, a1.checksum, a2.checksum);
    UniqueNameSeesOnlyPrevious(b1, b2);
  }

  /** `_get_used_files`, with the `extend` loop. */
  method GetUsedFiles(c: StepClass, t: Tree) returns (r: seq<Path>)
    ensures r == UsedFiles(c, t)
  {
    var used := [c.scriptPath];
    var i := 0;
    while i < |c.usedFiles|
      invariant 0 <= i <= |c.usedFiles|
      invariant used + Globbed(c.usedFiles[i..], t) == [c.scriptPath] + Globbed(c.usedFiles, t)
    {
      assert c.usedFiles[i..][1..] == c.usedFiles[i + 1..];
      assert Globbed(c.usedFiles[i..], t) == t.glob(c.usedFiles[i]) + Globbed(c.usedFiles[i + 1..], t);
      used := used + t.glob(c.usedFiles[i]);
      i := i + 1;
    }
    assert Globbed(c.usedFiles[i..], t) == [];
    assert used + [] == used;
    r := SortPaths(used);
  }

  lemma FeedOneFile(files: seq<Path>, i: nat, t: Tree)
    requires i < |files|
    ensures Flatten(FileChunks(files[..i + 1], t)) == Flatten(FileChunks(files[..i], t)) + files[i] + NatToString(t.mode(files[i])) + t.content(files[i])
  {
    var pre := files[..i + 1];
    assert pre[..|pre| - 1] == files[..i] && pre[|pre| - 1] == files[i];
    assert FileChunks(pre, t) == FileChunks(files[..i], t) + FileChunk(files[i], t);
    FlattenAppend(FileChunks(files[..i], t), FileChunk(files[i], t));
    FlattenThree(files[i], NatToString(t.mode(files[i])), t.content(files[i]));
  }

  lemma FeedSeed(chunks: seq<string>, seed: Option<string>)
    ensures Flatten(chunks + SeedChunks(seed)) == Flatten(chunks) + (if Truthy(seed) then seed.value else "")
  {
    if Truthy(seed) {
      FlattenAppend(chunks, [seed.value]);
      assert [seed.value][..0] == [];
    } else {
      assert chunks + SeedChunks(seed) == chunks;
    }
  }

  /** The `sha256.update` calls for the files, one file at a time. */
  method FeedFiles(files: seq<Path>, t: Tree) returns (fed: string)
    ensures fed == Flatten(FileChunks(files, t))
  {
    fed := "";
    var i := 0;
    while i < |files|
      invariant 0 <= i <= |files|
      invariant fed == Flatten(FileChunks(files[..i], t))
    {
      FeedOneFile(files, i, t);
      fed := fed + files[i] + NatToString(t.mode(files[i])) + t.content(files[i]);
      i := i + 1;
    }
    assert files[..i] == files;
  }

  /** `get_used_files_checksum`: the files' updates, then the seed when it is truthy. */
  method GetUsedFilesChecksum(c: StepClass, t: Tree, h: Hasher, seed: Option<string>) returns (r: string)
    ensures r == UsedFilesChecksum(c, t, h, seed)
  {
    var files := GetUsedFiles(c, t);
    var fed := FeedFiles(files, t);
    FeedSeed(FileChunks(files, t), seed);
    if seed.Some? && seed.value != "" {
      fed := fed + seed.value;
    } else {
      assert Flatten(FileChunks(files, t)) + "" == fed;
    }
    assert fed == Flatten(FileChunks(UsedFiles(c, t), t) + SeedChunks(seed));
    r := h(fed);
  }

  // ---------------------------------------------------------------------------------------------
  // Names.

  /** `unique_name`: name, previous step's name, architecture, and the initial image when in Docker. */
  function UniqueName(s: Step): string
  {
    var n := StepName(s.cls);
    var n1 := if s.previous.Some? then n + "_" + StepName(s.previous.value.cls) else n;
    var n2 := n1 + "_" + ArchValue(s.arch);
    if InDocker(s) then n2 + "_" + ReplaceChar(InitialDockerImage(s).value, ':', '_') else n2
  }

  /** `cache_name` (and `result_image_name`): the unique name followed by the checksum. */
  function CacheName(s: Step): string
  {
    UniqueName(s) + "_" + s.checksum
  }

  function ResultImageName(s: Step): string { CacheName(s) }

  lemma JoinedWithUnderscore(a: string, b: string, p: string)
    requires StartsWith(a, p)
    ensures StartsWith(a + "_" + b, p) && EndsWith(a + "_" + b, b)
  {
    StartsWithConcat(a, p, "_");
    StartsWithConcat(a + "_", p, b);
    EndsWithConcat(a + "_", b);
  }

  /** The unique name starts with the step's own name and ends with the initial image (`:` made `_`)
      when the step is in Docker, else with the architecture. */
  lemma UniqueNameShape(s: Step)
    ensures StartsWith(UniqueName(s), StepName(s.cls))
    ensures EndsWith(UniqueName(s), if InDocker(s) then ReplaceChar(InitialDockerImage(s).value, ':', '_') else ArchValue(s.arch))
  {
    var n := StepName(s.cls);
    assert n[..|n|] == n;
    var n1 := if s.previous.Some? then n + "_" + StepName(s.previous.value.cls) else n;
    if s.previous.Some? { JoinedWithUnderscore(n, StepName(s.previous.value.cls), n); }
    var n2 := n1 + "_" + ArchValue(s.arch);
    JoinedWithUnderscore(n1, ArchValue(s.arch), n);
    if InDocker(s) { JoinedWithUnderscore(n2, ReplaceChar(InitialDockerImage(s).value, ':', '_'), n); }
  }

  /** Only the immediate predecessor's name enters the unique name: steps that agree on their class,
      architecture, initial image and the class of the step before them share it, however the rest
      of their chains differ. Their cache names are then told apart by the checksum alone. */
  lemma UniqueNameSeesOnlyPrevious(s1: Step, s2: Step)
    requires s1.cls == s2.cls && s1.arch == s2.arch && InitialDockerImage(s1) == InitialDockerImage(s2)
    requires s1.previous.Some? == s2.previous.Some?
    requires s1.previous.Some? ==> s1.previous.value.cls == s2.previous.value.cls
    ensures UniqueName(s1) == UniqueName(s2)
    ensures CacheName(s1) == CacheName(s2) <==> s1.checksum == s2.checksum
  {
    CacheNameDeterminedByChecksum(s1, s2);
  }

  /** Two steps with the same unique name get the same cache key exactly when their checksums agree. */
  lemma CacheNameDeterminedByChecksum(s1: Step, s2: Step)
    requires UniqueName(s1) == UniqueName(s2)
    ensures CacheName(s1) == CacheName(s2) <==> s1.checksum == s2.checksum
  {
    var u := UniqueName(s1);
    if CacheName(s1) == CacheName(s2) {
      assert CacheName(s1)[|u| + 1..] == s1.checksum;
      assert CacheName(s2)[|u| + 1..] == s2.checksum;
    }
  }

  /** A predecessor whose checksum changed gives a different cache key downstream, everything else
      about the two steps being equal (and the hash not colliding). */
  lemma CacheKeyPropagates(s1: Step, s2: Step, m: Machine)
    requires StepChecksumCurrent(s1, m) && StepChecksumCurrent(s2, m)
    requires s1.cls == s2.cls && s1.arch == s2.arch && InitialDockerImage(s1) == InitialDockerImage(s2)
    requires s1.previous.Some? && s2.previous.Some? && s1.previous.value.cls == s2.previous.value.cls
    requires s1.previous.value.checksum != s2.previous.value.checksum
    requires s1.previous.value.checksum != "" && s2.previous.value.checksum != ""
    requires var pre := FileChunks(UsedFiles(s1.cls, m.tree), m.tree);
      CollisionFree(m.h, Flatten(pre + [s1.previous.value.checksum]), Flatten(pre + [s2.previous.value.checksum]))
    ensures CacheName(s1) != CacheName(s2)
  {
    ChecksumPropagates(s1.cls, m.tree, m.h, s1.previous.value.checksum, s2.previous.value.checksum);
    CacheNameDeterminedByChecksum(s1, s2);
  }

  // ---------------------------------------------------------------------------------------------
  // Construction.

  /** `DeploymentStep.__init__`: without a (truthy) base image, a step with a predecessor starts from
      the predecessor's result image; otherwise the given base image is kept. `checksum` is the value
      the step's `checksum` property reports. */
  function NewStep(c: StepClass, arch: Architecture, base: Option<string>, prev: Option<Step>, checksum: string): (s: Step)
    ensures s.cls == c && s.arch == arch && s.previous == prev && s.checksum == checksum
    ensures !Truthy(base) && prev.Some? ==> s.baseDockerImage == Some(ResultImageName(prev.value))
    ensures Truthy(base) || prev.None? ==> s.baseDockerImage == base
  {
    var b := if !Truthy(base) && prev.Some? then Some(ResultImageName(prev.value)) else base;
    Step(c, arch, b, prev, checksum)
  }

  /** A step as constructed, with its checksum computed by `GetUsedFilesChecksum`. */
  method BuildStep(c: StepClass, arch: Architecture, base: Option<string>, prev: Option<Step>, m: Machine) returns (s: Step)
    ensures s == NewStep(c, arch, base, prev, UsedFilesChecksum(c, m.tree, m.h, PreviousChecksum(prev)))
  {
    var seed := if prev.Some? then Some(prev.value.checksum) else None;
    var checksum := GetUsedFilesChecksum(c, m.tree, m.h, seed);
    var b := base;
    if (base.None? || base.value == "") && prev.Some? {
      b := Some(CacheName(prev.value));
    }
    s := Step(c, arch, b, prev, checksum);
  }

  /** The checksums of the steps of a chain built from `classes`, each seeded with the one before. */
  function ChainChecksums(classes: seq<StepClass>, f: (StepClass, Option<string>) -> string): (r: seq<string>)
    ensures |r| == |classes|
    decreases |classes|
  {
    if classes == [] then [] else
      var prev := ChainChecksums(classes[..|classes| - 1], f);
      prev + [f(classes[|classes| - 1], if prev == [] then None else Some(prev[|prev| - 1]))]
  }

  lemma {:induction false} ChainChecksumsPrefix(classes: seq<StepClass>, f: (StepClass, Option<string>) -> string, n: nat)
    requires n <= |classes|
    ensures ChainChecksums(classes[..n], f) == ChainChecksums(classes, f)[..n]
    decreases |classes|
  {
    if n < |classes| {
      var k := |classes| - 1;
      assert classes[..k][..n] == classes[..n];
      ChainChecksumsPrefix(classes[..k], f, n);
    } else {
      assert classes[..n] == classes;
    }
  }

  lemma ChainChecksumsStep(classes: seq<StepClass>, f: (StepClass, Option<string>) -> string, i: nat)
    requires i < |classes|
    ensures var prev := ChainChecksums(classes[..i], f);
      ChainChecksums(classes[..i + 1], f) == prev + [f(classes[i], if i == 0 then None else Some(prev[i - 1]))]
  {
    var pre := classes[..i + 1];
    assert pre[..|pre| - 1] == classes[..i] && pre[|pre| - 1] == classes[i];
  }

  function StepChecksums(steps: seq<Step>): (r: seq<string>)
    ensures |r| == |steps| && forall i :: 0 <= i < |steps| ==> r[i] == steps[i].checksum
  {
    seq(|steps|, i requires 0 <= i < |steps| => steps[i].checksum)
  }

  /** The shape of the chain `Deployment.__init__` builds: the first class gets the deployment's base
      image, each later step links to the step before it. */
  predicate Linked(steps: seq<Step>, classes: seq<StepClass>, arch: Architecture, base: Option<string>)
  {
    && |steps| == |classes| > 0
    && steps[0].cls == classes[0] && steps[0].arch == arch && steps[0].baseDockerImage == base && steps[0].previous.None?
    && forall i :: 0 < i < |steps| ==> steps[i].cls == classes[i] && steps[i].arch == arch && steps[i].previous == Some(steps[i - 1])
  }

  /** Every later step starts from the result image of the step before it. */
  predicate BasesAreResults(steps: seq<Step>)
  {
    BasesFollow(steps, CacheName)
  }

  /** Every later step starts from the image `name` gives the step before it. */
  predicate BasesFollow(steps: seq<Step>, name: Step -> string)
  {
    forall i :: 0 < i < |steps| ==> steps[i].baseDockerImage == Some(name(steps[i - 1]))
  }

  /** The checksum each step of a chain stores is the chain checksum computed afresh. */
  lemma {:induction false} StoredChecksumIsChainChecksum(steps: seq<Step>, classes: seq<StepClass>, arch: Architecture, base: Option<string>, f: (StepClass, Option<string>) -> string, i: nat)
    requires Linked(steps, classes, arch, base) && StepChecksums(steps) == ChainChecksums(classes, f) && i < |steps|
    ensures steps[i].checksum == ChainChecksum(steps[i], f)
  {
    var all := ChainChecksums(classes, f);
    ChainChecksumsPrefix(classes, f, i + 1);
    ChainChecksumsPrefix(classes, f, i);
    ChainChecksumsStep(classes, f, i);
    assert all[..i + 1][i] == all[i] == steps[i].checksum;
    if i > 0 {
      StoredChecksumIsChainChecksum(steps, classes, arch, base, f, i - 1);
      assert all[..i][i - 1] == all[i - 1] == steps[i - 1].checksum;
    }
  }

  /** The checksum a deployment's step holds is the `checksum` property evaluated afresh. */
  lemma StoredChecksumIsCurrent(steps: seq<Step>, classes: seq<StepClass>, arch: Architecture, base: Option<string>, m: Machine, i: nat)
    requires Linked(steps, classes, arch, base) && StepChecksums(steps) == ChainChecksums(classes, UsedFilesChecksumIn(m)) && i < |steps|
    ensures steps[i].checksum == Checksum(steps[i], m)
  {
    StoredChecksumIsChainChecksum(steps, classes, arch, base, UsedFilesChecksumIn(m), i);
  }

  /** Every step of a deployment has the deployment's base image as its initial image, so either all
      of them run in Docker or none does. */
  lemma {:induction false} ChainInitialImage(steps: seq<Step>, classes: seq<StepClass>, arch: Architecture, base: Option<string>, i: nat)
    requires Linked(steps, classes, arch, base) && i < |steps|
    ensures InitialDockerImage(steps[i]) == base
    ensures InDocker(steps[i]) <==> base.Some?
  {
    if i > 0 { ChainInitialImage(steps, classes, arch, base, i - 1); }
  }

  /** A step of a deployment that runs in Docker always has a base image to start from. */
  lemma InDockerHasBase(steps: seq<Step>, classes: seq<StepClass>, arch: Architecture, base: Option<string>, i: nat)
    requires Linked(steps, classes, arch, base) && BasesAreResults(steps) && i < |steps|
    requires InDocker(steps[i])
    ensures steps[i].baseDockerImage.Some?
  {
    if i == 0 {
      ChainInitialImage(steps, classes, arch, base, 0);
    } else {
      assert steps[i].baseDockerImage == Some(ResultImageName(steps[i - 1]));
    }
  }

  lemma ChainExtend(steps: seq<Step>, classes: seq<StepClass>, arch: Architecture, base: Option<string>, name: Step -> string, s: Step)
    requires Linked(steps, classes, arch, base) && BasesFollow(steps, name)
    requires s.arch == arch && s.previous == Some(steps[|steps| - 1]) && s.baseDockerImage == Some(name(steps[|steps| - 1]))
    ensures Linked(steps + [s], classes + [s.cls], arch, base) && BasesFollow(steps + [s], name)
  {
    var t := steps + [s];
    assert forall i :: 0 <= i < |steps| ==> t[i] == steps[i];
    assert forall i :: 0 <= i < |classes| ==> (classes + [s.cls])[i] == classes[i];
  }

  /** The first step of a chain. */
  lemma ChainStart(classes: seq<StepClass>, arch: Architecture, base: Option<string>, f: (StepClass, Option<string>) -> string, s: Step)
    requires classes != [] && s.cls == classes[0] && s.arch == arch && s.baseDockerImage == base && s.previous.None?
    requires s.checksum == f(classes[0], None)
    ensures Linked([s], classes[..1], arch, base) && BasesAreResults([s])
    ensures StepChecksums([s]) == ChainChecksums(classes[..1], f)
  {
    ChainChecksumsStep(classes, f, 0);
    assert classes[..0] == [];
  }

  lemma ChecksumsGrow(steps: seq<Step>, classes: seq<StepClass>, f: (StepClass, Option<string>) -> string, i: nat, s: Step)
    requires 0 < i < |classes| && |steps| == i
    requires StepChecksums(steps) == ChainChecksums(classes[..i], f)
    requires s.checksum == f(classes[i], Some(steps[i - 1].checksum))
    ensures StepChecksums(steps + [s]) == ChainChecksums(classes[..i + 1], f)
  {
    ChainChecksumsStep(classes, f, i);
    assert StepChecksums(steps + [s]) == StepChecksums(steps) + [s.checksum];
  }

  /** One more step, seeded with the last one's checksum and starting from its result image, keeps
      the chain linked and its checksums those of the longer class list. */
  lemma ChainGrow(steps: seq<Step>, classes: seq<StepClass>, arch: Architecture, base: Option<string>, name: Step -> string, f: (StepClass, Option<string>) -> string, i: nat, s: Step)
    requires 0 < i < |classes| && Linked(steps, classes[..i], arch, base) && BasesFollow(steps, name)
    requires StepChecksums(steps) == ChainChecksums(classes[..i], f)
    requires s.cls == classes[i] && s.arch == arch && s.previous == Some(steps[i - 1])
    requires s.baseDockerImage == Some(name(steps[i - 1])) && s.checksum == f(classes[i], Some(steps[i - 1].checksum))
    ensures Linked(steps + [s], classes[..i + 1], arch, base) && BasesFollow(steps + [s], name)
    ensures StepChecksums(steps + [s]) == ChainChecksums(classes[..i + 1], f)
  {
    ChainExtend(steps, classes[..i], arch, base, name, s);
    assert classes[..i] + [classes[i]] == classes[..i + 1];
    ChecksumsGrow(steps, classes, f, i, s);
  }

  function RegisterSteps(reg: map<string, Step>, steps: seq<Step>): (r: map<string, Step>)
    ensures forall s :: s in steps ==> StepName(s.cls) in r
    ensures reg.Keys <= r.Keys
    decreases |steps|
  {
    if steps == [] then reg else RegisterSteps(reg[StepName(steps[0].cls) := steps[0]], steps[1..])
  }

  lemma {:induction false} RegisterStepsAppend(reg: map<string, Step>, steps: seq<Step>, s: Step)
    ensures RegisterSteps(reg, steps + [s]) == RegisterSteps(reg, steps)[StepName(s.cls) := s]
    decreases |steps|
  {
    if steps != [] {
      assert (steps + [s])[1..] == steps[1..] + [s];
      RegisterStepsAppend(reg[StepName(steps[0].cls) := steps[0]], steps[1..], s);
    } else {
      assert [] + [s] == [s];
    }
  }

  // ---------------------------------------------------------------------------------------------
  // Running.

  /** What running one step amounts to: where it runs, its image tag (also the container's name and the
      archive's file name), its cache directory and the two commands it may issue. */
  datatype StepPlan = StepPlan(script: Path, inDocker: bool, tag: string, cacheDir: Option<Path>, local: seq<string>, run: Command)

  function StepCacheDir(cacheDir: Option<Path>, s: Step): Option<Path>
  {
    if cacheDir.Some? then Some(JoinPath(cacheDir.value, CacheName(s))) else None
  }

  /** `run`: locally (or when the step is not in Docker) the script runs on the host; otherwise
      `run_in_docker` runs it in a container named after the result image, from the step's base image,
      with every used file mounted below `/scalyr-agent-2`. */
  function PlanOf(s: Step, cacheDir: Option<Path>, locally: bool, m: Machine): StepPlan
  {
    var tag := ResultImageName(s);
    var dir := StepCacheDir(cacheDir, s);
    var run := RunContainer(tag, Some(PlatformValue(AsDockerPlatform(s.arch))), s.baseDockerImage.UnwrapOr(""),
      VolumeOptions(UsedFiles(s.cls, m.tree), m.root), [JoinPath(ContainerRoot, s.cls.scriptPath)]);
    StepPlan(s.cls.scriptPath, !locally && InDocker(s), tag, dir, DeployerFiles.ScriptCommand(s.cls.scriptPath, dir, m), run)
  }

  function Plans(steps: seq<Step>, cacheDir: Option<Path>, locally: bool, m: Machine): (r: seq<StepPlan>)
    ensures |r| == |steps| && forall i :: 0 <= i < |steps| ==> r[i] == PlanOf(steps[i], cacheDir, locally, m)
  {
    seq(|steps|, i requires 0 <= i < |steps| => PlanOf(steps[i], cacheDir, locally, m))
  }

  function RunPlanSpec(st: HostState, p: StepPlan, failing: set<Path>): Outcome
  {
    if !p.inDocker then Outcome(Logged(st, [Exec(p.local, map[])]), p.script !in failing)
    else BuildOrReuse(st, p.tag, p.cacheDir, p.tag, p.run, p.script in failing)
  }

  /** `deploy`: the steps in list order; the first failure stops it. */
  function DeployPlans(st: HostState, plans: seq<StepPlan>, failing: set<Path>): Outcome
    decreases |plans|
  {
    if plans == [] then Outcome(st, true) else
      var r := RunPlanSpec(st, plans[0], failing);
      if !r.ok then r else DeployPlans(r.state, plans[1..], failing)
  }

  /** The plan of one step, with the used files listed by `GetUsedFiles`. */
  method MakePlan(s: Step, cacheDir: Option<Path>, locally: bool, m: Machine) returns (p: StepPlan)
    ensures p == PlanOf(s, cacheDir, locally, m)
  {
    var tag := UniqueName(s) + "_" + s.checksum;
    var dir := if cacheDir.Some? then Some(JoinPath(cacheDir.value, tag)) else None;
    var files := GetUsedFiles(s.cls, m.tree);
    var run := RunContainer(tag, Some(PlatformValue(AsDockerPlatform(s.arch))), s.baseDockerImage.UnwrapOr(""),
      VolumeOptions(files, m.root), [JoinPath(ContainerRoot, s.cls.scriptPath)]);
    p := StepPlan(s.cls.scriptPath, !locally && InDocker(s), tag, dir, DeployerFiles.ScriptCommand(s.cls.scriptPath, dir, m), run);
  }

  /** `run` / `run_in_docker` of one step, against the host. */
  method RunPlan(p: StepPlan, failing: set<Path>, host: Host) returns (ok: bool)
    modifies host
    ensures var r := RunPlanSpec(old(host.State()), p, failing); host.State() == r.state && ok == r.ok
  {
    if !p.inDocker {
      ok := host.Exec(p.local, map[], p.script in failing);
    } else {
      ok := host.RunCached(p.tag, p.cacheDir, p.tag, p.run, p.script in failing);
    }
  }

  /** `steps` were built from `classes` by the loop of `Deployment.__init__` in the checkout `m`. */
  predicate Built(steps: seq<Step>, classes: seq<StepClass>, arch: Architecture, base: Option<string>, m: Machine)
  {
    Linked(steps, classes, arch, base) && BasesAreResults(steps) && StepChecksums(steps) == ChainChecksums(classes, UsedFilesChecksumIn(m))
  }

  /** The first step built by `Deployment.__init__` starts the chain. */
  lemma BuildChainStart(classes: seq<StepClass>, arch: Architecture, base: Option<string>, m: Machine, s: Step)
    requires classes != []
    requires s == NewStep(classes[0], arch, base, None, UsedFilesChecksum(classes[0], m.tree, m.h, PreviousChecksum(None)))
    ensures Built([s], classes[..1], arch, base, m)
  {
    var f := UsedFilesChecksumIn(m);
    assert s.checksum == f(classes[0], None);
    ChainStart(classes, arch, base, f, s);
  }

  /** One more step built by the loop of `Deployment.__init__` keeps the chain linked. */
  lemma BuildChainGrow(steps: seq<Step>, classes: seq<StepClass>, arch: Architecture, base: Option<string>, m: Machine, i: nat, s: Step)
    requires 0 < i < |classes| && Built(steps, classes[..i], arch, base, m)
    requires s == NewStep(classes[i], arch, None, Some(steps[i - 1]), UsedFilesChecksum(classes[i], m.tree, m.h, PreviousChecksum(Some(steps[i - 1]))))
    ensures Built(steps + [s], classes[..i + 1], arch, base, m)
  {
    var f := UsedFilesChecksumIn(m);
    assert s.checksum == f(classes[i], Some(steps[i - 1].checksum));
    assert s.baseDockerImage == Some(CacheName(steps[i - 1]));
    ChainGrow(steps, classes, arch, base, CacheName, f, i, s);
  }

  /** The loop of `Deployment.__init__`: the first class gets the deployment's base image, each
      later one the step before it. */
  method BuildChain(classes: seq<StepClass>, arch: Architecture, base: Option<string>, m: Machine) returns (steps: seq<Step>)
    requires classes != []
    ensures Linked(steps, classes, arch, base) && BasesAreResults(steps)
    ensures StepChecksums(steps) == ChainChecksums(classes, UsedFilesChecksumIn(m))
  {
    var previous := BuildStep(classes[0], arch, base, None, m);
    BuildChainStart(classes, arch, base, m, previous);
    steps := [previous];
    var i := 1;
    while i < |classes|
      invariant 1 <= i <= |classes|
      invariant |steps| == i && steps[i - 1] == previous
      invariant Built(steps, classes[..i], arch, base, m)
    {
      var step := BuildStep(classes[i], arch, None, Some(previous), m);
      BuildChainGrow(steps, classes, arch, base, m, i, step);
      steps := steps + [step];
      previous := step;
      i := i + 1;
    }
    assert classes[..i] == classes;
  }

  /** The class-level registries `DeploymentStep.ALL_DEPLOYMENT_STEPS` and `Deployment.ALL_DEPLOYMENTS`. */
  class Registry {
    var steps: map<string, Step>
    var deployments: map<string, Deployment>

    constructor ()
      ensures steps == map[] && deployments == map[]
    {
      steps, deployments := map[], map[];
    }

    /** `ALL_DEPLOYMENT_STEPS[name] = self` for each step, in order. */
    method RegisterAll(new_steps: seq<Step>)
      modifies this
      ensures steps == RegisterSteps(old(steps), new_steps) && deployments == old(deployments)
    {
      var i := 0;
      while i < |new_steps|
        invariant 0 <= i <= |new_steps| && deployments == old(deployments)
        invariant steps == RegisterSteps(old(steps), new_steps[..i])
      {
        RegisterStepsAppend(old(steps), new_steps[..i], new_steps[i]);
        assert new_steps[..i + 1] == new_steps[..i] + [new_steps[i]];
        steps := steps[StepName(new_steps[i].cls) := new_steps[i]];
        i := i + 1;
      }
      assert new_steps[..i] == new_steps;
    }
  }

  class Deployment {
    const name: string
    const architecture: Architecture
    var steps: seq<Step>

    constructor (name: string, architecture: Architecture)
      ensures this.name == name && this.architecture == architecture && steps == []
    {
      this.name, this.architecture, steps := name, architecture, [];
    }

    /** `Deployment.__init__`: an empty class list fails at `pop(0)`. Registers every step and then
        the deployment. */
    static method Create(name: string, classes: seq<StepClass>, arch: Architecture, base: Option<string>, m: Machine, reg: Registry)
      returns (r: Result<Deployment>)
      modifies reg
      ensures r.Err? <==> classes == []
      ensures r.Err? ==> r.error == IndexError("pop from empty list") && reg.steps == old(reg.steps) && reg.deployments == old(reg.deployments)
      ensures r.Ok? ==> fresh(r.value) && r.value.name == name && r.value.architecture == arch
      ensures r.Ok? ==> Linked(r.value.steps, classes, arch, base) && BasesAreResults(r.value.steps) && StepChecksums(r.value.steps) == ChainChecksums(classes, UsedFilesChecksumIn(m))
      ensures r.Ok? ==> reg.steps == RegisterSteps(old(reg.steps), r.value.steps)
      ensures r.Ok? ==> reg.deployments == old(reg.deployments)[name := r.value]
    {
      if classes == [] {
        return Err(IndexError("pop from empty list"));
      }
      var steps := BuildChain(classes, arch, base, m);
      var d := new Deployment(name, arch);
      d.steps := steps;
      reg.RegisterAll(steps);
      reg.deployments := reg.deployments[name := d];
      r := Ok(d);
    }

    /** `result_image_name`: the last step's result image name, lower-cased. */
    function ResultImageName(): (r: string)
      reads this
      requires steps != []
      ensures var c := CacheName(steps[|steps| - 1]); |r| == |c| && forall i :: 0 <= i < |r| ==> r[i] == LowerChar(c[i])
    {
      Lower(CacheName(steps[|steps| - 1]))
    }

    /** `deploy`: every step in list order, each with its own cache directory; the first failure stops it. */
    method Deploy(cacheDir: Option<Path>, locally: bool, m: Machine, host: Host) returns (ok: bool)
      modifies host
      ensures var r := DeployPlans(old(host.State()), Plans(steps, cacheDir, locally, m), m.failing);
        host.State() == r.state && ok == r.ok
    {
      ghost var plans := Plans(steps, cacheDir, locally, m);
      var i := 0;
      ok := true;
      while i < |steps|
        invariant 0 <= i <= |steps|
        invariant DeployPlans(old(host.State()), plans, m.failing) == DeployPlans(host.State(), plans[i..], m.failing)
      {
        var p := MakePlan(steps[i], cacheDir, locally, m);
        assert p == plans[i];
        assert plans[i..][1..] == plans[i + 1..];
        ok := RunPlan(p, m.failing, host);
        if !ok {
          return;
        }
        i := i + 1;
      }
      assert plans[i..] == [];
    }
  }

  /** A deployment runs locally exactly when asked to or when it has no base image; then no step
      touches Docker. The plan's tag and cache directory are the step's cache name. */
  lemma DeploymentPlans(steps: seq<Step>, classes: seq<StepClass>, arch: Architecture, base: Option<string>, cacheDir: Option<Path>, locally: bool, m: Machine, i: nat)
    requires Linked(steps, classes, arch, base) && StepChecksums(steps) == ChainChecksums(classes, UsedFilesChecksumIn(m)) && i < |steps|
    ensures var p := Plans(steps, cacheDir, locally, m)[i];
      && (p.inDocker <==> !locally && base.Some?)
      && p.tag == UniqueName(steps[i]) + "_" + Checksum(steps[i], m)
      && p.cacheDir == (if cacheDir.Some? then Some(JoinPath(cacheDir.value, p.tag)) else None)
  {
    ChainInitialImage(steps, classes, arch, base, i);
    StoredChecksumIsCurrent(steps, classes, arch, base, m, i);
  }

  // ---------------------------------------------------------------------------------------------
  // Properties of a deployment run.

  /** The commands a local deployment runs for the given plans, in order. */
  function LocalCommands(plans: seq<StepPlan>): (r: seq<Command>)
    ensures |r| == |plans|
  {
    if plans == [] then [] else [Exec(plans[0].local, map[])] + LocalCommands(plans[1..])
  }

  /** Index of the first step whose script fails, or the number of steps. */
  function FirstFailing(plans: seq<StepPlan>, failing: set<Path>): (k: nat)
    ensures k <= |plans|
    ensures forall i :: 0 <= i < k ==> plans[i].script !in failing
    ensures k < |plans| ==> plans[k].script in failing
  {
    if plans == [] then 0 else if plans[0].script in failing then 0 else 1 + FirstFailing(plans[1..], failing)
  }

  lemma LocalCommandsCons(plans: seq<StepPlan>, n: nat)
    requires 0 < n <= |plans|
    ensures LocalCommands(plans[..n]) == [Exec(plans[0].local, map[])] + LocalCommands(plans[1..][..n - 1])
  {
    assert plans[..n] == [plans[0]] + plans[1..][..n - 1];
  }

  /** A local deployment runs the scripts strictly in list order and stops right after the first
      failing one; Docker images and the cache are left alone. */
  lemma {:induction false} LocalDeployOrder(st: HostState, plans: seq<StepPlan>, failing: set<Path>)
    requires forall i :: 0 <= i < |plans| ==> !plans[i].inDocker
    ensures var r := DeployPlans(st, plans, failing);
      var k := FirstFailing(plans, failing);
      var n := if k < |plans| then k + 1 else k;
      && r.ok == (k == |plans|)
      && r.state == Logged(st, LocalCommands(plans[..n]))
    decreases |plans|
  {
    if plans == [] {
      assert LocalCommands(plans[..0]) == [];
    } else {
      var p := plans[0];
      var rest := plans[1..];
      var st1 := Logged(st, [Exec(p.local, map[])]);
      assert RunPlanSpec(st, p, failing) == Outcome(st1, p.script !in failing);
      if p.script in failing {
        LocalCommandsCons(plans, 1);
        assert LocalCommands(rest[..0]) == [];
      } else {
        assert forall i :: 0 <= i < |rest| ==> !rest[i].inDocker by {
          forall i | 0 <= i < |rest| ensures !rest[i].inDocker { assert rest[i] == plans[i + 1]; }
        }
        LocalDeployOrder(st1, rest, failing);
        var k := FirstFailing(plans, failing);
        var n := if k < |plans| then k + 1 else k;
        assert FirstFailing(rest, failing) == k - 1;
        LocalCommandsCons(plans, n);
        LoggedTwice(st, [Exec(p.local, map[])], LocalCommands(rest[..n - 1]));
      }
    }
  }

  /** Every step runs in Docker and its cache directory holds no archive, or holds that tag's image. */
  ghost predicate DockerReady(st: HostState, plans: seq<StepPlan>)
  {
    forall i :: 0 <= i < |plans| ==> (plans[i].inDocker && ArchiveHoldsTag(st, plans[i].tag, plans[i].cacheDir))
  }

  ghost predicate AllImagesPresent(st: HostState, plans: seq<StepPlan>)
  {
    forall i :: 0 <= i < |plans| ==> plans[i].tag in st.images
  }

  /** The image queries a deployment that finds every image makes, in step order. */
  function Queries(plans: seq<StepPlan>): (r: seq<Command>)
    ensures |r| == |plans|
  {
    if plans == [] then [] else [ImageQuery(plans[0].tag)] + Queries(plans[1..])
  }

  /** A Docker step leaves every other step's archive faithful. */
  lemma StepKeepsReady(st: HostState, plans: seq<StepPlan>, p: StepPlan, failing: set<Path>)
    requires p.inDocker && ArchiveHoldsTag(st, p.tag, p.cacheDir) && DockerReady(st, plans)
    ensures var r := RunPlanSpec(st, p, failing); DockerReady(r.state, plans) && st.images <= r.state.images
  {
    forall i | 0 <= i < |plans|
      ensures ArchiveHoldsTag(RunPlanSpec(st, p, failing).state, plans[i].tag, plans[i].cacheDir)
    {
      BuildOrReuseKeepsArchives(st, p.tag, p.cacheDir, p.tag, p.run, p.script in failing, plans[i].tag, plans[i].cacheDir);
    }
    BuildOrReuseKeepsArchives(st, p.tag, p.cacheDir, p.tag, p.run, p.script in failing, p.tag, p.cacheDir);
  }

  /** A successful Docker deployment leaves every step's image in place and every archive faithful. */
  lemma {:induction false} DockerDeployEstablishesImages(st: HostState, plans: seq<StepPlan>, failing: set<Path>)
    requires DockerReady(st, plans)
    ensures var r := DeployPlans(st, plans, failing);
      r.ok ==> AllImagesPresent(r.state, plans) && DockerReady(r.state, plans)
    decreases |plans|
  {
    if plans != [] {
      var p := plans[0];
      var r1 := RunPlanSpec(st, p, failing);
      BuildOrReuseIdempotent(st, p.tag, p.cacheDir, p.tag, p.run, p.script in failing);
      StepKeepsReady(st, plans, p, failing);
      assert forall i :: 0 <= i < |plans| - 1 ==> plans[1..][i] == plans[i + 1];
      if r1.ok {
        DockerDeployEstablishesImages(r1.state, plans[1..], failing);
        DeployKeeps(r1.state, plans[1..], plans, failing);
      }
    }
  }

  /** A Docker deployment keeps every image it finds and every faithful archive. */
  lemma {:induction false} DeployKeeps(st: HostState, plans: seq<StepPlan>, others: seq<StepPlan>, failing: set<Path>)
    requires DockerReady(st, plans) && DockerReady(st, others)
    ensures var r := DeployPlans(st, plans, failing);
      st.images <= r.state.images && DockerReady(r.state, others)
    decreases |plans|
  {
    if plans != [] {
      var p := plans[0];
      var r1 := RunPlanSpec(st, p, failing);
      StepKeepsReady(st, plans, p, failing);
      StepKeepsReady(st, others, p, failing);
      assert forall i :: 0 <= i < |plans| - 1 ==> plans[1..][i] == plans[i + 1];
      if r1.ok {
        DeployKeeps(r1.state, plans[1..], others, failing);
      }
    }
  }

  /** With every image already present, a Docker deployment only queries the tags, in step order. */
  lemma {:induction false} DockerDeployAllPresent(st: HostState, plans: seq<StepPlan>, failing: set<Path>)
    requires forall i :: 0 <= i < |plans| ==> plans[i].inDocker
    requires AllImagesPresent(st, plans)
    ensures DeployPlans(st, plans, failing) == Outcome(Logged(st, Queries(plans)), true)
    decreases |plans|
  {
    if plans != [] {
      var p := plans[0];
      var rest := plans[1..];
      var st1 := Logged(st, [ImageQuery(p.tag)]);
      ExistingTagIsReused(st, p.tag, p.cacheDir, p.tag, p.run, p.script in failing);
      assert RunPlanSpec(st, p, failing) == Outcome(st1, true);
      assert AllImagesPresent(st1, rest) by {
        forall i | 0 <= i < |rest| ensures rest[i].tag in st1.images { assert rest[i] == plans[i + 1]; }
      }
      assert forall i :: 0 <= i < |rest| ==> rest[i].inDocker by {
        forall i | 0 <= i < |rest| ensures rest[i].inDocker { assert rest[i] == plans[i + 1]; }
      }
      DockerDeployAllPresent(st1, rest, failing);
      LoggedTwice(st, [ImageQuery(p.tag)], Queries(rest));
    }
  }

  /** Re-deploying after a successful Docker deployment rebuilds nothing, loads nothing and writes no
      cache file: it only queries each step's tag. */
  lemma DockerRedeployIsIdempotent(st: HostState, plans: seq<StepPlan>, failing: set<Path>)
    requires DockerReady(st, plans)
    ensures var r := DeployPlans(st, plans, failing);
      r.ok ==> DeployPlans(r.state, plans, failing) == Outcome(Logged(r.state, Queries(plans)), true)
  {
    DockerDeployEstablishesImages(st, plans, failing);
    var r := DeployPlans(st, plans, failing);
    if r.ok { DockerDeployAllPresent(r.state, plans, failing); }
  }

  function Reversed<T>(s: seq<T>): (r: seq<T>)
    ensures |r| == |s| && forall i :: 0 <= i < |s| ==> r[i] == s[|s| - 1 - i]
  {
    seq(|s|, i requires 0 <= i < |s| => s[|s| - 1 - i])
  }

  function CacheNames(steps: seq<Step>): (r: seq<string>)
    ensures |r| == |steps| && forall i :: 0 <= i < |steps| ==> r[i] == CacheName(steps[i])
  {
    seq(|steps|, i requires 0 <= i < |steps| => CacheName(steps[i]))
  }

  /** The cache keys a CI job restores, as `scripts/cicd/run_deployment.py` prints them: the steps'
      cache names, last step first. */
  function CiCacheKeys(steps: seq<Step>): (r: seq<string>)
    ensures |r| == |steps| && forall i :: 0 <= i < |steps| ==> r[i] == CacheName(steps[|steps| - 1 - i])
  {
    CacheNames(Reversed(steps))
  }

  // ---------------------------------------------------------------------------------------------
  // The concrete steps.

  const ScriptsDir: Path := "agent_tools/environment_deployer_scripts"
  const HelperScripts: seq<string> := [ScriptsDir + "/cache_lib.sh"]
  const RequirementFiles: string := "agent_build/requirement-files/*.txt"

  const InstallPythonStep := StepClass("InstallPythonStep", ScriptsDir + "/install_python_and_ruby.sh", [])
  const InstallBuildRequirementsStep := StepClass("InstallBuildRequirementsStep", ScriptsDir + "/deploy_build_environment.sh", HelperScripts + [RequirementFiles])
  const InstallTestRequirementsDeploymentStep := StepClass("InstallTestRequirementsDeploymentStep", ScriptsDir + "/deploy-dev-environment.sh", HelperScripts + [RequirementFiles, "dev-requirements.txt"])
  const InstallWindowsBuilderToolsStep := StepClass("InstallWindowsBuilderToolsStep", ScriptsDir + "/deploy_agent_windows_builder.ps1", HelperScripts + [RequirementFiles])
}
