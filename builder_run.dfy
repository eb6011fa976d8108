/** agent_build/tools/builder.py, running steps. The machine is the set of directories and files
    under the build root, the Docker daemon's images, and the log of actions taken in order; it is
    one mutable host object. A script either succeeds or fails, as the context says; every other
    action succeeds. An exception is a run that returns `false` at once. */
module BuilderRun {
  import opened Wrappers
  import opened Strings
  import opened Paths
  import opened BuilderSteps

  datatype Action =
    | MakeDir(dir: Path)                                    // mkdir(parents=True)
    | RemoveTree(dir: Path)                                 // shutil.rmtree
    | RenameDir(from: Path, to: Path)                       // Path.rename
    | CopyTree(from: Path, to: Path)                        // shutil.copytree
    | WriteText(file: Path, text: string)                   // Path.write_text
    | ListParent(dir: Path)                                 // `ls -al <dir>/..`
    | CopySources(dir: Path, files: seq<Path>)              // the shutil.copy2 loop
    | Exec(args: seq<string>, env: map<string, string>, cwd: Path)
    | DockerRemove(container: string)                       // docker rm -f
    | DockerRun(args: seq<string>)
    | DockerCommit(container: string, image: string)
    | DockerSave(image: string, archive: Path)
    | ImagesQuery(image: string)                            // docker images -q
    | DockerLoad(archive: Path)                             // docker load -i

  /** `p` is `d` or a path below it. */
  predicate Under(p: Path, d: Path) { p == d || StartsWith(p, d + "/") }

  lemma JoinUnder(d: Path, n: string)
    ensures Under(JoinPath(d, n), d)
  {
    assert (d + "/" + n)[..|d| + 1] == d + "/";
  }

  lemma UnderPrefix(p: Path, d: Path)
    requires Under(p, d)
    ensures |d| <= |p| && p[..|d|] == d
  {
    if p != d {
      assert p[..|d|] == p[..|d| + 1][..|d|];
    }
  }

  /** Below `d` and longer than it, a path goes on with `/`. */
  lemma SlashAfter(p: Path, d: Path)
    requires Under(p, d) && |d| < |p|
    ensures p[|d|] == '/'
  {
    assert p[..|d| + 1] == d + "/";
    assert p[|d|] == p[..|d| + 1][|d|];
  }

  lemma PrefixAt(p: Path, d: Path, k: nat)
    requires |d| <= |p| && p[..|d|] == d && k < |d|
    ensures p[k] == d[k]
  {
    assert p[k] == p[..|d|][k];
  }

  /** Two entries of one directory whose names hold no `/` have disjoint subtrees. */
  lemma SubtreesDisjoint(p: Path, d: Path, a: string, b: string)
    requires '/' !in a && '/' !in b
    ensures Under(p, JoinPath(d, a)) && Under(p, JoinPath(d, b)) ==> a == b
  {
    if Under(p, JoinPath(d, a)) && Under(p, JoinPath(d, b)) {
      SameSubtree(p, d, a, b);
    }
  }

  lemma SameSubtree(p: Path, d: Path, a: string, b: string)
    requires '/' !in a && '/' !in b
    requires Under(p, JoinPath(d, a)) && Under(p, JoinPath(d, b))
    ensures a == b
  {
    var pa, pb := d + "/" + a, d + "/" + b;
    UnderPrefix(p, pa);
    UnderPrefix(p, pb);
    if |a| < |b| {
      SlashAfter(p, pa);
      PrefixAt(p, pb, |pa|);
      assert false;
    } else if |b| < |a| {
      SlashAfter(p, pb);
      PrefixAt(p, pa, |pb|);
      assert false;
    } else {
      assert pa == p[..|pa|] == pb;
      assert a == pa[|d| + 1..] && b == pb[|d| + 1..];
    }
  }

  /** Nothing is below both an output directory and an isolated source root. */
  lemma RootsApart(p: Path, root: Path, a: string, b: string)
    ensures !(Under(p, JoinPath(JoinPath(root, "step_outputs"), a)) && Under(p, JoinPath(JoinPath(root, "step_isolated_source_roots"), b)))
  {
    var o, i := JoinPath(JoinPath(root, "step_outputs"), a), JoinPath(JoinPath(root, "step_isolated_source_roots"), b);
    if Under(p, o) && Under(p, i) {
      UnderPrefix(p, o);
      UnderPrefix(p, i);
      PrefixAt(p, o, |root| + 6);
      PrefixAt(p, i, |root| + 6);
      assert false;
    }
  }

  /** A path with no `/` is below no directory of the build root. */
  lemma NoSlashOutsideRoot(p: Path, root: Path, name: string, id: string)
    requires '/' !in p
    ensures !Under(p, JoinPath(JoinPath(root, name), id))
  {
    var d := JoinPath(JoinPath(root, name), id);
    if Under(p, d) {
      UnderPrefix(p, d);
    }
  }

  /** `p` is created, removed, or becomes or stops being a file between the two states. */
  predicate Changed(a: BuildState, b: BuildState, p: Path)
  {
    (p in a.dirs) != (p in b.dirs) || (p in a.files) != (p in b.files)
  }

  /** The paths below `a`, moved below `b`. */
  function Moved(paths: set<Path>, a: Path, b: Path): (r: set<Path>)
    ensures forall p :: p in paths && Under(p, a) ==> b + p[|a|..] in r
    ensures forall q :: q in r ==> Under(q, b)
  {
    MovedBelow(paths, a, b);
    set p | p in paths && Under(p, a) :: b + p[|a|..]
  }

  lemma MovedBelow(paths: set<Path>, a: Path, b: Path)
    ensures forall p :: p in paths && Under(p, a) ==> Under(b + p[|a|..], b)
  {
    forall p | p in paths && Under(p, a) ensures Under(b + p[|a|..], b) {
      if p != a {
        assert p[..|a| + 1] == a + "/";
        assert (b + p[|a|..])[..|b| + 1] == b + "/";
      }
    }
  }

  /** The paths not below `d`. */
  function Outside(paths: set<Path>, d: Path): set<Path>
  {
    set p | p in paths && !Under(p, d)
  }

  datatype BuildState = BuildState(dirs: set<Path>, files: set<Path>, images: set<string>, log: seq<Action>)
  {
    function Logged(a: Action): (r: BuildState)
      ensures r.dirs == dirs && r.files == files && r.images == images && r.log == log + [a]
    {
      this.(log := log + [a])
    }

    function MakeDir(d: Path): (r: BuildState)
      ensures d in r.dirs && r.images == images && r.log == log + [Action.MakeDir(d)]
      ensures forall p :: Changed(this, r, p) ==> p == d
    {
      this.(dirs := dirs + {d}).Logged(Action.MakeDir(d))
    }

    function RemoveTree(d: Path): (r: BuildState)
      ensures forall p :: Under(p, d) ==> p !in r.dirs && p !in r.files
      ensures forall p :: Changed(this, r, p) ==> Under(p, d)
      ensures r.images == images && r.log == log + [Action.RemoveTree(d)]
    {
      this.(dirs := Outside(dirs, d), files := Outside(files, d)).Logged(Action.RemoveTree(d))
    }

    /** `Path.rename`: everything below `a` is now below `b`. */
    function Rename(a: Path, b: Path): (r: BuildState)
      ensures forall p :: p in dirs && Under(p, a) ==> b + p[|a|..] in r.dirs
      ensures forall p :: p in files && Under(p, a) ==> b + p[|a|..] in r.files
      ensures forall p :: Changed(this, r, p) ==> Under(p, a) || Under(p, b)
      ensures forall p :: Under(p, a) && !Under(p, b) ==> p !in r.dirs && p !in r.files
      ensures r.images == images && r.log == log + [RenameDir(a, b)]
    {
      this.(dirs := Outside(dirs, a) + Moved(dirs, a, b), files := Outside(files, a) + Moved(files, a, b)).Logged(RenameDir(a, b))
    }

    /** `shutil.copytree`: what is below `a` is also below `b`. */
    function CopyTree(a: Path, b: Path): (r: BuildState)
      ensures forall p :: p in dirs && Under(p, a) ==> b + p[|a|..] in r.dirs
      ensures forall p :: p in files && Under(p, a) ==> b + p[|a|..] in r.files
      ensures forall p :: Changed(this, r, p) ==> Under(p, b)
      ensures r.images == images && r.log == log + [Action.CopyTree(a, b)]
    {
      this.(dirs := dirs + Moved(dirs, a, b), files := files + Moved(files, a, b)).Logged(Action.CopyTree(a, b))
    }

    function AddFile(f: Path): BuildState
    {
      this.(files := files + {f})
    }
  }

  datatype Ran = Ran(state: BuildState, ok: bool)

  /** Where a cached image is loaded from: as the source writes it, a path spelled like the image
      name; as intended, the archive `_run_in_docker` saved, `<output>/<id>.tar`. */
  datatype ArchiveMode = AsWritten | Corrected

  function ArchivePath(root: Path, s: Step, c: Context): Path
  {
    JoinPath(OutputDir(root, s, c), Id(s, c) + ".tar")
  }

  function ImageArchive(mode: ArchiveMode, root: Path, s: Step, c: Context): Path
  {
    if mode == AsWritten then Id(s, c) else ArchivePath(root, s, c)
  }

  /** `DockerImageSpec.load_image`: nothing when the image is present; otherwise `docker load`,
      which fails when the archive is not there. */
  function LoadImageSpec(st: BuildState, name: string, archive: Path): (r: Ran)
    ensures r.state.dirs == st.dirs && r.state.files == st.files
    ensures r.ok <==> name in st.images || archive in st.files
    ensures r.ok ==> name in r.state.images
  {
    var queried := st.Logged(ImagesQuery(name));
    if name in st.images then Ran(queried, true)
    else
      var loading := queried.Logged(DockerLoad(archive));
      if archive in st.files then Ran(loading.(images := st.images + {name}), true) else Ran(loading, false)
  }

  /** `_prepare_working_source_root`: the isolated source root is emptied and refilled with the
      tracked files. */
  function PrepareSourceRootSpec(st: BuildState, s: Step, root: Path, c: Context): (r: BuildState)
    ensures SourceRootDir(root, s, c) in r.dirs && r.images == st.images
  {
    Refill(st, SourceRootDir(root, s, c), TrackedFilePaths(s, c.tree))
  }

  /** Directory `src` emptied (when it is there) and made again, holding the `tracked` files. */
  function Refill(st: BuildState, src: Path, tracked: seq<Path>): (r: BuildState)
    ensures src in r.dirs && r.images == st.images
  {
    var cleared := if src in st.dirs then st.Logged(ListParent(src)).RemoveTree(src) else st;
    var made := cleared.MakeDir(src);
    made.(files := made.files + (set p | p in tracked :: JoinPath(src, p))).Logged(CopySources(src, tracked))
  }

  /** `_run_locally`. */
  function RunLocallySpec(st: BuildState, s: Step, root: Path, c: Context): (r: Ran)
    ensures r.state.dirs == st.dirs && r.state.files == st.files && r.state.images == st.images
    ensures r.ok <==> CommandLineArgs(s, root, c).Ok? && s.script !in c.failing
  {
    var args := CommandLineArgs(s, root, c);
    if args.Err? then Ran(st, false)
    else Ran(st.Logged(Exec(args.value, LocalEnv(s, root, c), SourceRootDir(root, s, c))), s.script !in c.failing)
  }

  /** `_run_in_docker` (for an environment step, with the commit and the save its override adds),
      then the `docker rm -f` that follows it in `_run`. */
  function RunInDockerSpec(st: BuildState, s: Step, root: Path, c: Context): (r: Ran)
    requires RunsInDocker(s)
    ensures r.state.dirs == st.dirs
    ensures st.files <= r.state.files <= st.files + {JoinPath(TempOutputDir(root, s, c), Id(s, c) + ".tar")}
    ensures r.ok <==> CommandLineArgs(s, root, c).Ok? && s.script !in c.failing
    ensures r.ok && s.kind == Environment ==>
      JoinPath(TempOutputDir(root, s, c), Id(s, c) + ".tar") in r.state.files && Id(s, c) in r.state.images
  {
    var args := CommandLineArgs(s, root, c);
    if args.Err? then Ran(st, false)
    else
      var started := st.Logged(DockerRemove(ContainerName)).Logged(DockerRun(DockerRunArgs(s, s.baseImage.value, root, c, args.value)));
      if s.script in c.failing then Ran(started, false)
      else
        var id := Id(s, c);
        var archive := JoinPath(TempOutputDir(root, s, c), id + ".tar");
        var done := if s.kind == Environment then
            started.Logged(DockerCommit(ContainerName, id)).(images := started.images + {id}).Logged(DockerSave(id, archive)).AddFile(archive)
          else started;
        Ran(done.Logged(DockerRemove(ContainerName)), true)
  }

  /** Preparing the isolated source root changes nothing outside it and puts every tracked file in it. */
  lemma PrepareSourceRootFootprint(st: BuildState, s: Step, root: Path, c: Context)
    ensures var r := PrepareSourceRootSpec(st, s, root, c);
      && (forall p :: Changed(st, r, p) ==> Under(p, SourceRootDir(root, s, c)))
      && (forall p :: p in TrackedFilePaths(s, c.tree) ==> JoinPath(SourceRootDir(root, s, c), p) in r.files)
      && (NothingBelowMissing(st, SourceRootDir(root, s, c)) ==>
            forall p :: p in r.files && Under(p, SourceRootDir(root, s, c)) ==>
              exists q :: q in TrackedFilePaths(s, c.tree) && p == JoinPath(SourceRootDir(root, s, c), q))
  {
    RefillFootprint(st, SourceRootDir(root, s, c), TrackedFilePaths(s, c.tree));
  }

  /** No file lies below `d` unless `d` is a directory. */
  predicate NothingBelowMissing(st: BuildState, d: Path)
  {
    d !in st.dirs ==> forall p :: p in st.files ==> !Under(p, d)
  }

  lemma RefillFootprint(st: BuildState, src: Path, tracked: seq<Path>)
    ensures var r := Refill(st, src, tracked);
      && (forall p :: Changed(st, r, p) ==> Under(p, src))
      && (forall p :: p in tracked ==> JoinPath(src, p) in r.files)
      && (NothingBelowMissing(st, src) ==> forall p :: p in r.files && Under(p, src) ==> exists q :: q in tracked && p == JoinPath(src, q))
  {
    var cleared := if src in st.dirs then st.Logged(ListParent(src)).RemoveTree(src) else st;
    var made := cleared.MakeDir(src);
    var placed := set p | p in tracked :: JoinPath(src, p);
    var r := Refill(st, src, tracked);
    assert r.files == made.files + placed && r.dirs == made.dirs;
    forall p | Changed(st, r, p) ensures Under(p, src) {
      if !Changed(st, cleared, p) && !Changed(cleared, made, p) {
        var n :| n in tracked && p == JoinPath(src, n);
        JoinUnder(src, n);
      }
    }
  }

  /** The script, in docker or locally, changes at most the one archive file. */
  lemma RunnerFootprint(st: BuildState, s: Step, root: Path, c: Context)
    ensures var r := if RunsInDocker(s) then RunInDockerSpec(st, s, root, c) else RunLocallySpec(st, s, root, c);
      r.state.dirs == st.dirs && st.files <= r.state.files <= st.files + {JoinPath(TempOutputDir(root, s, c), Id(s, c) + ".tar")}
  {
  }

  /** The script and the info file change nothing but the temporary output and the isolated source
      root, and remove no directory but the latter's. */
  lemma ScriptFootprint(st: BuildState, s: Step, root: Path, c: Context)
    ensures var r := ScriptSpec(st, s, root, c);
      && (forall p :: Changed(st, r.state, p) ==> Under(p, TempOutputDir(root, s, c)) || Under(p, SourceRootDir(root, s, c)))
      && (forall p :: p in st.dirs && p !in r.state.dirs ==> Under(p, SourceRootDir(root, s, c)))
  {
    var tmp := TempOutputDir(root, s, c);
    var info := JoinPath(tmp, "step_info.txt");
    var archive := JoinPath(tmp, Id(s, c) + ".tar");
    var written := st.AddFile(info).Logged(WriteText(info, c.json(Info(s, c))));
    var prepared := PrepareSourceRootSpec(written, s, root, c);
    var r := ScriptSpec(st, s, root, c);
    assert r == if RunsInDocker(s) then RunInDockerSpec(prepared, s, root, c) else RunLocallySpec(prepared, s, root, c);
    PrepareSourceRootFootprint(written, s, root, c);
    RunnerFootprint(prepared, s, root, c);
    JoinUnder(tmp, "step_info.txt");
    JoinUnder(tmp, Id(s, c) + ".tar");
    ComposeScript(st, written, prepared, r.state, tmp, SourceRootDir(root, s, c), info, archive);
  }

  /** Writing a file below `tmp`, refilling `src` and adding at most one file below `tmp` change
      nothing else, and remove no directory but below `src`. */
  lemma ComposeScript(st: BuildState, written: BuildState, prepared: BuildState, done: BuildState,
                      tmp: Path, src: Path, info: Path, archive: Path)
    requires written.dirs == st.dirs && written.files == st.files + {info}
    requires Under(info, tmp) && Under(archive, tmp)
    requires forall p :: Changed(written, prepared, p) ==> Under(p, src)
    requires done.dirs == prepared.dirs && prepared.files <= done.files <= prepared.files + {archive}
    ensures forall p :: Changed(st, done, p) ==> Under(p, tmp) || Under(p, src)
    ensures forall p :: p in st.dirs && p !in done.dirs ==> Under(p, src)
  {
    forall p | Changed(st, done, p) ensures Under(p, tmp) || Under(p, src) {
      if !Changed(written, prepared, p) && p != info {
        assert Changed(prepared, done, p);
      }
    }
    forall p | p in st.dirs && p !in done.dirs ensures Under(p, src) {
      assert Changed(written, prepared, p);
    }
  }

  /** `_run(run_previous_steps)`: the dependencies in order and then the base step, when asked;
      the info file; the isolated source root; the script, in docker or locally. */
  function StepRunSpec(st: BuildState, s: Step, root: Path, c: Context, mode: ArchiveMode, previous: bool): Ran
    decreases s, 2
  {
    var pre := if previous then PreviousSpec(st, s, root, c, mode) else Ran(st, true);
    if !pre.ok then pre else ScriptSpec(pre.state, s, root, c)
  }

  /** The part of `_run` after the previous steps. */
  function ScriptSpec(st: BuildState, s: Step, root: Path, c: Context): (r: Ran)
    ensures r.ok <==> CommandLineArgs(s, root, c).Ok? && s.script !in c.failing
    ensures r.ok && RunsInDocker(s) && s.kind == Environment ==>
      JoinPath(TempOutputDir(root, s, c), Id(s, c) + ".tar") in r.state.files && Id(s, c) in r.state.images
  {
    var info := JoinPath(TempOutputDir(root, s, c), "step_info.txt");
    var prepared := PrepareSourceRootSpec(st.AddFile(info).Logged(WriteText(info, c.json(Info(s, c)))), s, root, c);
    if RunsInDocker(s) then RunInDockerSpec(prepared, s, root, c) else RunLocallySpec(prepared, s, root, c)
  }

  /** The dependency steps from the `i`-th on, then the base step. */
  function PreviousSpec(st: BuildState, s: Step, root: Path, c: Context, mode: ArchiveMode): Ran
    decreases s, 1
  {
    var r := DepsSpec(st, s, 0, root, c, mode);
    if !r.ok || s.baseStep.None? then r else RunSpec(r.state, s.baseStep.value, root, c, mode)
  }

  function DepsSpec(st: BuildState, s: Step, i: nat, root: Path, c: Context, mode: ArchiveMode): Ran
    requires i <= |s.deps|
    decreases s, 0, |s.deps| - i
  {
    if i == |s.deps| then Ran(st, true)
    else
      var r := RunSpec(st, s.deps[i], root, c, mode);
      if !r.ok then r else DepsSpec(r.state, s, i + 1, root, c, mode)
  }

  /** `run` of either class. An artifact step with an output directory does nothing; otherwise it
      runs into an empty `~<id>` directory that is renamed to the output only once `_run` returned.
      An environment step with an output directory only loads its image when it runs in docker,
      and otherwise reruns its script on a copy of the output, without the previous steps, and
      deletes the copy. */
  function RunSpec(st: BuildState, s: Step, root: Path, c: Context, mode: ArchiveMode): Ran
    decreases s, 3
  {
    var out, tmp := OutputDir(root, s, c), TempOutputDir(root, s, c);
    var cached := out in st.dirs;
    if cached && s.kind == Artifact then Ran(st, true)
    else if cached && RunsInDocker(s) then LoadImageSpec(st, Id(s, c), ImageArchive(mode, root, s, c))
    else Finish(StepRunSpec(ReadyTemp(st, out, tmp), s, root, c, mode, !cached), out, tmp, cached)
  }

  /** The temporary output emptied, then a copy of the output when there is one. */
  function ReadyTemp(st: BuildState, out: Path, tmp: Path): (r: BuildState)
    ensures out !in st.dirs ==> tmp in r.dirs
    ensures forall p :: Changed(st, r, p) ==> Under(p, tmp)
  {
    var cleared := if tmp in st.dirs then st.RemoveTree(tmp) else st;
    if out in st.dirs then cleared.CopyTree(out, tmp) else cleared.MakeDir(tmp)
  }

  /** After `_run` succeeded: the temporary output renamed to the output, or, when the output was
      there before, deleted. */
  function Finish(r: Ran, out: Path, tmp: Path, cached: bool): (f: Ran)
    ensures f.ok == r.ok
    ensures forall p :: Changed(r.state, f.state, p) ==> Under(p, tmp) || (f.ok && !cached && Under(p, out))
  {
    if !r.ok then r
    else if cached then Ran(r.state.RemoveTree(tmp), true)
    else Ran(r.state.Rename(tmp, out), true)
  }

  // ---------------------------------------------------------------- what a run touches

  /** The directories that belong to step `x`: its output, its temporary output, its isolated
      source root. */
  ghost predicate Owned(p: Path, x: Step, root: Path, c: Context)
  {
    Under(p, OutputDir(root, x, c)) || Under(p, TempOutputDir(root, x, c)) || Under(p, SourceRootDir(root, x, c))
  }

  /** `x` is a step that `s` uses, directly or not, other than `s` itself. */
  ghost predicate UsedBy(x: Step, s: Step)
  {
    (exists i :: 0 <= i < |s.deps| && Within(x, s.deps[i])) || (s.baseStep.Some? && Within(x, s.baseStep.value))
  }

  /** `p` belongs to a step that `s` uses. */
  ghost predicate OwnedBelow(p: Path, s: Step, root: Path, c: Context)
  {
    exists x :: UsedBy(x, s) && Owned(p, x, root, c)
  }

  /** What belongs to a step that `s` uses directly, or to a step that one uses, is owned below `s`. */
  lemma Lift(p: Path, s: Step, d: Step, root: Path, c: Context)
    requires (exists i :: 0 <= i < |s.deps| && s.deps[i] == d) || s.baseStep == Some(d)
    requires Owned(p, d, root, c) || OwnedBelow(p, d, root, c)
    ensures OwnedBelow(p, s, root, c)
  {
    var y := d;
    if !Owned(p, d, root, c) {
      y :| UsedBy(y, d) && Owned(p, y, root, c);
    }
    assert Within(y, d);
    if s.baseStep != Some(d) {
      var i :| 0 <= i < |s.deps| && s.deps[i] == d;
      assert Within(y, s.deps[i]);
    }
    assert UsedBy(y, s);
  }

  /** A run of `s` changes only the temporary output and isolated source root of `s`, its output
      when it succeeds, and what belongs to the steps it uses. */
  lemma RunFootprint(st: BuildState, s: Step, root: Path, c: Context, mode: ArchiveMode)
    ensures var r := RunSpec(st, s, root, c, mode);
      forall p :: Changed(st, r.state, p) ==>
        Under(p, TempOutputDir(root, s, c)) || Under(p, SourceRootDir(root, s, c)) || OwnedBelow(p, s, root, c)
        || (r.ok && Under(p, OutputDir(root, s, c)))
    decreases s, 4
  {
    var out := OutputDir(root, s, c);
    if !(out in st.dirs && (s.kind == Artifact || RunsInDocker(s))) {
      RerunFootprint(st, s, root, c, mode);
    }
  }

  /** The same, for a run that goes through `_run`. */
  lemma RerunFootprint(st: BuildState, s: Step, root: Path, c: Context, mode: ArchiveMode)
    requires !(OutputDir(root, s, c) in st.dirs && (s.kind == Artifact || RunsInDocker(s)))
    ensures var r := RunSpec(st, s, root, c, mode);
      forall p :: Changed(st, r.state, p) ==>
        Under(p, TempOutputDir(root, s, c)) || Under(p, SourceRootDir(root, s, c)) || OwnedBelow(p, s, root, c)
        || (r.ok && Under(p, OutputDir(root, s, c)))
    decreases s, 3
  {
    var out, tmp := OutputDir(root, s, c), TempOutputDir(root, s, c);
    var cached := out in st.dirs;
    var ready := ReadyTemp(st, out, tmp);
    var r := StepRunSpec(ready, s, root, c, mode, !cached);
    StepRunFootprint(ready, s, root, c, mode, !cached);
    var final := Finish(r, out, tmp, cached);
    assert RunSpec(st, s, root, c, mode) == final;
    ComposeFootprint(st, ready, r.state, final, s, root, c);
  }

  lemma ComposeFootprint(st: BuildState, ready: BuildState, done: BuildState, final: Ran, s: Step, root: Path, c: Context)
    requires forall p :: Changed(st, ready, p) ==> Under(p, TempOutputDir(root, s, c))
    requires forall p :: Changed(ready, done, p) ==>
      Under(p, TempOutputDir(root, s, c)) || Under(p, SourceRootDir(root, s, c)) || OwnedBelow(p, s, root, c)
    requires forall p :: Changed(done, final.state, p) ==> Under(p, TempOutputDir(root, s, c)) || (final.ok && Under(p, OutputDir(root, s, c)))
    ensures forall p :: Changed(st, final.state, p) ==>
      Under(p, TempOutputDir(root, s, c)) || Under(p, SourceRootDir(root, s, c)) || OwnedBelow(p, s, root, c)
      || (final.ok && Under(p, OutputDir(root, s, c)))
  {
  }

  /** `_run` removes no directory but the isolated source root's and those owned below `s`; with
      no previous steps it changes nothing owned below `s`. */
  lemma StepRunFootprint(st: BuildState, s: Step, root: Path, c: Context, mode: ArchiveMode, previous: bool)
    ensures var r := StepRunSpec(st, s, root, c, mode, previous);
      && (forall p :: Changed(st, r.state, p) ==>
            Under(p, TempOutputDir(root, s, c)) || Under(p, SourceRootDir(root, s, c)) || (previous && OwnedBelow(p, s, root, c)))
      && (forall p :: p in st.dirs && p !in r.state.dirs ==> Under(p, SourceRootDir(root, s, c)) || OwnedBelow(p, s, root, c))
    decreases s, 2
  {
    var pre := if previous then PreviousSpec(st, s, root, c, mode) else Ran(st, true);
    if previous {
      PreviousFootprint(st, s, root, c, mode);
    }
    if pre.ok {
      var r := ScriptSpec(pre.state, s, root, c);
      assert StepRunSpec(st, s, root, c, mode, previous) == r;
      ScriptFootprint(pre.state, s, root, c);
      forall p | Changed(st, r.state, p)
        ensures Under(p, TempOutputDir(root, s, c)) || Under(p, SourceRootDir(root, s, c)) || (previous && OwnedBelow(p, s, root, c))
      {
        if !Changed(st, pre.state, p) {
          assert Changed(pre.state, r.state, p);
        }
      }
      forall p | p in st.dirs && p !in r.state.dirs ensures Under(p, SourceRootDir(root, s, c)) || OwnedBelow(p, s, root, c) {
        if p in pre.state.dirs {
        } else {
          assert Changed(st, pre.state, p);
        }
      }
    }
  }

  lemma PreviousFootprint(st: BuildState, s: Step, root: Path, c: Context, mode: ArchiveMode)
    ensures var r := PreviousSpec(st, s, root, c, mode);
      forall p :: Changed(st, r.state, p) ==> OwnedBelow(p, s, root, c)
    decreases s, 1
  {
    var r := DepsSpec(st, s, 0, root, c, mode);
    DepsFootprint(st, s, 0, root, c, mode);
    if r.ok && s.baseStep.Some? {
      var b := s.baseStep.value;
      var rb := RunSpec(r.state, b, root, c, mode);
      RunFootprint(r.state, b, root, c, mode);
      forall p | Changed(r.state, rb.state, p) ensures OwnedBelow(p, s, root, c) {
        Lift(p, s, b, root, c);
      }
    }
  }

  lemma DepsFootprint(st: BuildState, s: Step, i: nat, root: Path, c: Context, mode: ArchiveMode)
    requires i <= |s.deps|
    ensures var r := DepsSpec(st, s, i, root, c, mode);
      forall p :: Changed(st, r.state, p) ==> OwnedBelow(p, s, root, c)
    decreases s, 0, |s.deps| - i
  {
    if i < |s.deps| {
      var d := s.deps[i];
      var r := RunSpec(st, d, root, c, mode);
      RunFootprint(st, d, root, c, mode);
      forall p | Changed(st, r.state, p) ensures OwnedBelow(p, s, root, c) {
        Lift(p, s, d, root, c);
      }
      if r.ok {
        DepsFootprint(r.state, s, i + 1, root, c, mode);
      }
    }
  }

  // ---------------------------------------------------------------- what a run leaves behind

  /** An id with no `/` that does not start with `~`: one directory name beside the others. */
  ghost predicate PlainId(x: Step, c: Context)
  {
    var id := Id(x, c); |id| > 0 && id[0] != '~' && '/' !in id
  }

  /** Every step `s` uses, itself included, has a plain id, and none but `s` has the id of `s`. */
  ghost predicate Separated(s: Step, c: Context)
  {
    (forall x :: Within(x, s) ==> PlainId(x, c)) && (forall x :: UsedBy(x, s) ==> Id(x, c) != Id(s, c))
  }

  /** The output of a step shares nothing with its temporary output or its isolated source root. */
  lemma OwnDirsApart(s: Step, root: Path, c: Context)
    requires PlainId(s, c)
    ensures forall p :: Under(p, OutputDir(root, s, c)) ==>
      !Under(p, TempOutputDir(root, s, c)) && !Under(p, SourceRootDir(root, s, c))
    ensures !Under(TempOutputDir(root, s, c), SourceRootDir(root, s, c))
  {
    var id := Id(s, c);
    forall p | Under(p, OutputDir(root, s, c))
      ensures !Under(p, TempOutputDir(root, s, c)) && !Under(p, SourceRootDir(root, s, c))
    {
      SubtreesDisjoint(p, JoinPath(root, "step_outputs"), id, "~" + id);
      RootsApart(p, root, id, id);
    }
    RootsApart(TempOutputDir(root, s, c), root, "~" + id, id);
  }

  /** The output and temporary output of `s` belong to no other step with a plain id. */
  lemma StepsApart(root: Path, s: Step, x: Step, c: Context)
    requires PlainId(s, c) && PlainId(x, c) && Id(x, c) != Id(s, c)
    ensures !Owned(OutputDir(root, s, c), x, root, c) && !Owned(TempOutputDir(root, s, c), x, root, c)
  {
    NamesApart(root, Id(s, c), Id(x, c));
  }

  lemma NamesApart(root: Path, a: string, b: string)
    requires |a| > 0 && a[0] != '~' && '/' !in a
    requires |b| > 0 && b[0] != '~' && '/' !in b
    requires a != b
    ensures var outs, roots := JoinPath(root, "step_outputs"), JoinPath(root, "step_isolated_source_roots");
      && !Under(JoinPath(outs, a), JoinPath(outs, b)) && !Under(JoinPath(outs, a), JoinPath(outs, "~" + b))
      && !Under(JoinPath(outs, a), JoinPath(roots, b))
      && !Under(JoinPath(outs, "~" + a), JoinPath(outs, b)) && !Under(JoinPath(outs, "~" + a), JoinPath(outs, "~" + b))
      && !Under(JoinPath(outs, "~" + a), JoinPath(roots, b))
  {
    var outs := JoinPath(root, "step_outputs");
    var ta, tb := "~" + a, "~" + b;
    assert ta[0] == '~' && tb[0] == '~' && ta[1..] == a && tb[1..] == b;
    assert '/' !in ta && '/' !in tb;
    SubtreesDisjoint(JoinPath(outs, a), outs, a, b);
    SubtreesDisjoint(JoinPath(outs, a), outs, a, tb);
    RootsApart(JoinPath(outs, a), root, a, b);
    SubtreesDisjoint(JoinPath(outs, ta), outs, ta, b);
    SubtreesDisjoint(JoinPath(outs, ta), outs, ta, tb);
    RootsApart(JoinPath(outs, ta), root, ta, b);
  }

  lemma UsedDirsApart(s: Step, root: Path, c: Context)
    requires Separated(s, c)
    ensures !OwnedBelow(OutputDir(root, s, c), s, root, c) && !OwnedBelow(TempOutputDir(root, s, c), s, root, c)
  {
    forall x | UsedBy(x, s)
      ensures !Owned(OutputDir(root, s, c), x, root, c) && !Owned(TempOutputDir(root, s, c), x, root, c)
    {
      assert Within(x, s) && Within(s, s);
      StepsApart(root, s, x, c);
    }
  }

  /** A run that fails does not create the output directory. */
  lemma FailedRunLeavesNoOutput(st: BuildState, s: Step, root: Path, c: Context, mode: ArchiveMode)
    requires Separated(s, c) && OutputDir(root, s, c) !in st.dirs
    ensures var r := RunSpec(st, s, root, c, mode); !r.ok ==> OutputDir(root, s, c) !in r.state.dirs
  {
    RunFootprint(st, s, root, c, mode);
    assert Within(s, s);
    OwnDirsApart(s, root, c);
    UsedDirsApart(s, root, c);
  }

  /** A run that succeeds leaves the output directory in place. */
  lemma SuccessfulRunLeavesOutput(st: BuildState, s: Step, root: Path, c: Context, mode: ArchiveMode)
    requires Separated(s, c)
    ensures var r := RunSpec(st, s, root, c, mode); r.ok ==> OutputDir(root, s, c) in r.state.dirs
  {
    var out := OutputDir(root, s, c);
    assert Within(s, s);
    if out !in st.dirs {
      FreshRunPublishesOutput(st, s, root, c, mode);
    } else if s.kind == Environment && !RunsInDocker(s) {
      CachedRerunKeepsOutput(st, s, root, c, mode);
    }
  }

  /** Without an output directory, a successful run ends by renaming the temporary output to it. */
  lemma FreshRunPublishesOutput(st: BuildState, s: Step, root: Path, c: Context, mode: ArchiveMode)
    requires Separated(s, c) && OutputDir(root, s, c) !in st.dirs
    ensures var r := RunSpec(st, s, root, c, mode);
      r.ok ==> OutputDir(root, s, c) in r.state.dirs && r.state.log[|r.state.log| - 1] == RenameDir(TempOutputDir(root, s, c), OutputDir(root, s, c))
  {
    var out, tmp := OutputDir(root, s, c), TempOutputDir(root, s, c);
    var ready := ReadyTemp(st, out, tmp);
    var r := StepRunSpec(ready, s, root, c, mode, true);
    assert RunSpec(st, s, root, c, mode) == Finish(r, out, tmp, false);
    StepRunFootprint(ready, s, root, c, mode, true);
    assert Within(s, s);
    OwnDirsApart(s, root, c);
    UsedDirsApart(s, root, c);
    assert tmp in r.state.dirs;
    assert out + tmp[|tmp|..] == out;
  }

  /** An environment step that reruns its script on a copy of its output leaves everything below the
      output as it was, whether the script succeeds or not. */
  lemma CachedRerunKeepsOutput(st: BuildState, s: Step, root: Path, c: Context, mode: ArchiveMode)
    requires s.kind == Environment && !RunsInDocker(s) && OutputDir(root, s, c) in st.dirs && PlainId(s, c)
    ensures var r := RunSpec(st, s, root, c, mode);
      forall p :: Under(p, OutputDir(root, s, c)) ==> (p in r.state.dirs <==> p in st.dirs) && (p in r.state.files <==> p in st.files)
  {
    var out, tmp := OutputDir(root, s, c), TempOutputDir(root, s, c);
    var ready := ReadyTemp(st, out, tmp);
    var r := StepRunSpec(ready, s, root, c, mode, false);
    var final := Finish(r, out, tmp, true);
    assert RunSpec(st, s, root, c, mode) == final;
    StepRunFootprint(ready, s, root, c, mode, false);
    OwnDirsApart(s, root, c);
    KeptBelow(st, ready, r.state, final.state, out, tmp, SourceRootDir(root, s, c));
  }

  /** Three changes, none of which reaches below `out`, leave everything below it as it was. */
  lemma KeptBelow(st: BuildState, ready: BuildState, done: BuildState, final: BuildState, out: Path, tmp: Path, src: Path)
    requires forall p :: Changed(st, ready, p) ==> Under(p, tmp)
    requires forall p :: Changed(ready, done, p) ==> Under(p, tmp) || Under(p, src)
    requires forall p :: Changed(done, final, p) ==> Under(p, tmp)
    requires forall p :: Under(p, out) ==> !Under(p, tmp) && !Under(p, src)
    ensures forall p :: Under(p, out) ==> (p in final.dirs <==> p in st.dirs) && (p in final.files <==> p in st.files)
  {
    forall p | Under(p, out) ensures !Changed(st, final, p) {
      assert !Changed(st, ready, p) && !Changed(ready, done, p) && !Changed(done, final, p);
    }
  }

  /** An environment step that runs in docker and had no output saves its image as `<id>.tar` in
      the output directory. */
  lemma EnvironmentRunSavesArchive(st: BuildState, s: Step, root: Path, c: Context, mode: ArchiveMode)
    requires s.kind == Environment && RunsInDocker(s) && OutputDir(root, s, c) !in st.dirs
    ensures var r := RunSpec(st, s, root, c, mode);
      r.ok ==> ArchivePath(root, s, c) in r.state.files && Id(s, c) in r.state.images
  {
    var out, tmp := OutputDir(root, s, c), TempOutputDir(root, s, c);
    var ready := ReadyTemp(st, out, tmp);
    var r := StepRunSpec(ready, s, root, c, mode, true);
    assert RunSpec(st, s, root, c, mode) == Finish(r, out, tmp, false);
    PublishedFile(r, out, tmp, Id(s, c) + ".tar", Id(s, c));
  }

  /** Renaming the temporary output publishes a file in it, and keeps the images. */
  lemma PublishedFile(r: Ran, out: Path, tmp: Path, name: string, image: string)
    requires r.ok ==> JoinPath(tmp, name) in r.state.files && image in r.state.images
    ensures var f := Finish(r, out, tmp, false); f.ok ==> JoinPath(out, name) in f.state.files && image in f.state.images
  {
    if r.ok {
      JoinUnder(tmp, name);
      assert out + JoinPath(tmp, name)[|tmp|..] == JoinPath(out, name);
    }
  }

  /** A step whose output exists and that does not rerun changes no file or directory: an artifact
      step does nothing, an environment step in docker only makes sure its image is loaded. */
  lemma CachedStepOnlyLoads(st: BuildState, s: Step, root: Path, c: Context, mode: ArchiveMode)
    requires OutputDir(root, s, c) in st.dirs && (s.kind == Artifact || RunsInDocker(s))
    ensures var r := RunSpec(st, s, root, c, mode);
      && r.state.dirs == st.dirs && r.state.files == st.files
      && (s.kind == Artifact ==> r == Ran(st, true))
      && (s.kind == Environment ==>
            r.state.log == st.log + [ImagesQuery(Id(s, c))] + (if Id(s, c) in st.images then [] else [DockerLoad(ImageArchive(mode, root, s, c))])
            && (r.ok <==> Id(s, c) in st.images || ImageArchive(mode, root, s, c) in st.files)
            && (r.ok ==> Id(s, c) in r.state.images))
  {
  }

  /** A path with no `/` belongs to no step. */
  lemma NoSlashNotOwned(p: Path, s: Step, root: Path, c: Context)
    requires '/' !in p
    ensures !Under(p, TempOutputDir(root, s, c)) && !Under(p, SourceRootDir(root, s, c)) && !Under(p, OutputDir(root, s, c))
    ensures !OwnedBelow(p, s, root, c)
  {
    NoSlashOutsideRoot(p, root, "step_outputs", Id(s, c));
    NoSlashOutsideRoot(p, root, "step_outputs", "~" + Id(s, c));
    NoSlashOutsideRoot(p, root, "step_isolated_source_roots", Id(s, c));
    forall x | UsedBy(x, s) ensures !Owned(p, x, root, c) {
      NoSlashOutsideRoot(p, root, "step_outputs", Id(x, c));
      NoSlashOutsideRoot(p, root, "step_outputs", "~" + Id(x, c));
      NoSlashOutsideRoot(p, root, "step_isolated_source_roots", Id(x, c));
    }
  }

  /** As written, `load_image` reads an archive named like the image, which nothing writes: once
      the daemon no longer has the image of an environment step built earlier, the next run fails,
      although the archive the first run saved is in the output. */
  lemma RebuiltImageIsNotRestored(st: BuildState, s: Step, root: Path, c: Context, images: set<string>)
    requires Separated(s, c) && s.kind == Environment && RunsInDocker(s)
    requires OutputDir(root, s, c) !in st.dirs && Id(s, c) !in st.files && Id(s, c) !in images
    requires RunSpec(st, s, root, c, AsWritten).ok
    ensures var later := RunSpec(st, s, root, c, AsWritten).state.(images := images);
      ArchivePath(root, s, c) in later.files && !RunSpec(later, s, root, c, AsWritten).ok
  {
    var r := RunSpec(st, s, root, c, AsWritten);
    var later := r.state.(images := images);
    assert OutputDir(root, s, c) in later.dirs && ArchivePath(root, s, c) in later.files by {
      EnvironmentRunSavesArchive(st, s, root, c, AsWritten);
      SuccessfulRunLeavesOutput(st, s, root, c, AsWritten);
    }
    assert Id(s, c) !in later.files by {
      RunFootprint(st, s, root, c, AsWritten);
      assert Within(s, s);
      NoSlashNotOwned(Id(s, c), s, root, c);
      assert !Changed(st, r.state, Id(s, c));
    }
    CachedStepOnlyLoads(later, s, root, c, AsWritten);
  }

  /** With the corrected archive path, an environment step whose output holds its archive reruns
      by loading that archive, whether or not the daemon still has the image. */
  lemma SavedArchiveIsLoaded(later: BuildState, s: Step, root: Path, c: Context)
    requires s.kind == Environment && RunsInDocker(s)
    requires OutputDir(root, s, c) in later.dirs && ArchivePath(root, s, c) in later.files
    ensures var again := RunSpec(later, s, root, c, Corrected);
      again.ok && Id(s, c) in again.state.images && again.state.dirs == later.dirs && again.state.files == later.files
  {
    assert ImageArchive(Corrected, root, s, c) == ArchivePath(root, s, c);
    CachedStepOnlyLoads(later, s, root, c, Corrected);
  }

  /** Loading from `<output>/<id>.tar`, as intended, the next run restores the image instead. */
  lemma RebuiltImageIsRestored(st: BuildState, s: Step, root: Path, c: Context, images: set<string>)
    requires Separated(s, c) && s.kind == Environment && RunsInDocker(s)
    requires OutputDir(root, s, c) !in st.dirs
    requires RunSpec(st, s, root, c, Corrected).ok
    ensures var later := RunSpec(st, s, root, c, Corrected).state.(images := images);
      var again := RunSpec(later, s, root, c, Corrected);
      again.ok && Id(s, c) in again.state.images && again.state.dirs == later.dirs && again.state.files == later.files
  {
    var r := RunSpec(st, s, root, c, Corrected);
    var later := r.state.(images := images);
    assert OutputDir(root, s, c) in later.dirs && ArchivePath(root, s, c) in later.files by {
      EnvironmentRunSavesArchive(st, s, root, c, Corrected);
      SuccessfulRunLeavesOutput(st, s, root, c, Corrected);
    }
    SavedArchiveIsLoaded(later, s, root, c);
  }

  /** `Builder`: its class's `CACHEABLE_STEPS` and the steps it was given. */
  datatype Builder = Builder(cacheableSteps: seq<Step>, usedSteps: seq<Step>)

  /** Steps run one after another until one fails. */
  function RunAllSpec(st: BuildState, steps: seq<Step>, root: Path, c: Context, mode: ArchiveMode): Ran
    decreases |steps|
  {
    if steps == [] then Ran(st, true)
    else
      var r := RunSpec(st, steps[0], root, c, mode);
      if !r.ok then r else RunAllSpec(r.state, steps[1..], root, c, mode)
  }

  /** `Builder.run`: the cacheable steps, then the used steps. */
  function BuilderRunSpec(st: BuildState, b: Builder, root: Path, c: Context, mode: ArchiveMode): Ran
  {
    RunAllSpec(st, b.cacheableSteps + b.usedSteps, root, c, mode)
  }

  /** The build host: the file system below the build root, the Docker daemon's images, and what
      was run, in order. */
  class BuildHost {
    var dirs: set<Path>
    var files: set<Path>
    var images: set<string>
    var log: seq<Action>

    function State(): BuildState
      reads this
    {
      BuildState(dirs, files, images, log)
    }

    constructor (st: BuildState)
      ensures State() == st
    {
      dirs, files, images, log := st.dirs, st.files, st.images, st.log;
    }

    /** A command with no effect on the state modelled here. */
    method Do(a: Action)
      modifies this
      ensures State() == old(State()).Logged(a)
    {
      log := log + [a];
    }

    /** `check_call`: the command runs and fails when it is one that fails. */
    method Check(a: Action, fails: bool) returns (ok: bool)
      modifies this
      ensures State() == old(State()).Logged(a) && ok == !fails
    {
      log := log + [a];
      ok := !fails;
    }

    method MakeDir(d: Path)
      modifies this
      ensures State() == old(State()).MakeDir(d)
    {
      dirs := dirs + {d};
      log := log + [Action.MakeDir(d)];
    }

    method RemoveTree(d: Path)
      modifies this
      ensures State() == old(State()).RemoveTree(d)
    {
      dirs, files := Outside(dirs, d), Outside(files, d);
      log := log + [Action.RemoveTree(d)];
    }

    method Rename(a: Path, b: Path)
      modifies this
      ensures State() == old(State()).Rename(a, b)
    {
      dirs, files := Outside(dirs, a) + Moved(dirs, a, b), Outside(files, a) + Moved(files, a, b);
      log := log + [RenameDir(a, b)];
    }

    method CopyTree(a: Path, b: Path)
      modifies this
      ensures State() == old(State()).CopyTree(a, b)
    {
      dirs, files := dirs + Moved(dirs, a, b), files + Moved(files, a, b);
      log := log + [Action.CopyTree(a, b)];
    }

    method WriteText(f: Path, text: string)
      modifies this
      ensures State() == old(State()).AddFile(f).Logged(Action.WriteText(f, text))
    {
      files := files + {f};
      log := log + [Action.WriteText(f, text)];
    }

    /** The tracked files copied below the isolated source root. */
    method CopySources(src: Path, tracked: seq<Path>)
      modifies this
      ensures State() == old(State()).(files := old(files) + (set p | p in tracked :: JoinPath(src, p))).Logged(Action.CopySources(src, tracked))
    {
      files := files + (set p | p in tracked :: JoinPath(src, p));
      log := log + [Action.CopySources(src, tracked)];
    }

    /** `docker commit`: the container becomes the image. */
    method Commit(container: string, image: string)
      modifies this
      ensures State() == old(State()).Logged(DockerCommit(container, image)).(images := old(images) + {image})
    {
      log := log + [DockerCommit(container, image)];
      images := images + {image};
    }

    /** `docker save` into a file. */
    method Save(image: string, archive: Path)
      modifies this
      ensures State() == old(State()).Logged(DockerSave(image, archive)).AddFile(archive)
    {
      log := log + [DockerSave(image, archive)];
      files := files + {archive};
    }

    /** `docker images -q`: whether the image is present. */
    method ImageExists(image: string) returns (present: bool)
      modifies this
      ensures State() == old(State()).Logged(ImagesQuery(image)) && present == (image in images)
    {
      log := log + [ImagesQuery(image)];
      present := image in images;
    }

    /** `docker load -i`: fails when the archive does not exist; otherwise the image is present. */
    method Load(archive: Path, image: string) returns (ok: bool)
      modifies this
      ensures ok == (archive in old(files))
      ensures State() == if ok then old(State()).Logged(DockerLoad(archive)).(images := old(images) + {image})
                         else old(State()).Logged(DockerLoad(archive))
    {
      log := log + [DockerLoad(archive)];
      ok := archive in files;
      if ok {
        images := images + {image};
      }
    }
  }

  /** `DockerImageSpec.load_image`, from the archive the caller names. */
  method LoadImage(name: string, archive: Path, host: BuildHost) returns (ok: bool)
    modifies host
    ensures var r := LoadImageSpec(old(host.State()), name, archive); host.State() == r.state && ok == r.ok
  {
    var present := host.ImageExists(name);
    if present {
      return true;
    }
    ok := host.Load(archive, name);
  }

  /** `_get_command_line_args`: the dependencies' outputs collected in a loop. */
  method GetCommandLineArgs(s: Step, root: Path, c: Context) returns (r: Result<seq<string>>)
    ensures r == CommandLineArgs(s, root, c)
  {
    var outputs := DependencyOutputs(s, root, c);
    var shell := Interpreter(s.script);
    if shell.Err? {
      return Err(shell.error);
    }
    r := Ok([shell.value, s.script] + outputs);
  }

  /** Where the script finds each dependency's output, in the order of the dependencies. */
  method DependencyOutputs(s: Step, root: Path, c: Context) returns (outputs: seq<string>)
    ensures outputs == seq(|s.deps|, j requires 0 <= j < |s.deps| => DependencyOutput(s, s.deps[j], root, c))
  {
    outputs := [];
    var i := 0;
    while i < |s.deps|
      invariant i <= |s.deps| && |outputs| == i
      invariant forall j :: 0 <= j < i ==> outputs[j] == DependencyOutput(s, s.deps[j], root, c)
    {
      outputs := outputs + [DependencyOutput(s, s.deps[i], root, c)];
      i := i + 1;
    }
  }

  /** The environment of `_run_locally`, built by the settings loop. */
  method GetLocalEnv(s: Step, root: Path, c: Context) returns (env: map<string, string>)
    ensures env == LocalEnv(s, root, c)
  {
    var start := c.environ["STEP_OUTPUT_PATH" := TempOutputDir(root, s, c)];
    env := start;
    var i := 0;
    while i < |s.settings|
      invariant i <= |s.settings|
      invariant env == ApplySettings(start, s.settings[..i])
    {
      var setting := s.settings[i];
      if setting.value.Some? {
        env := env[setting.name := setting.value.value];
      }
      assert s.settings[..i + 1][..i] == s.settings[..i];
      i := i + 1;
    }
    assert s.settings[..i] == s.settings;
    env := env["SOURCE_ROOT" := SourceRootDir(root, s, c)];
  }

  /** `_prepare_working_source_root`. */
  method PrepareSourceRoot(s: Step, root: Path, c: Context, host: BuildHost)
    modifies host
    ensures host.State() == PrepareSourceRootSpec(old(host.State()), s, root, c)
  {
    var src := SourceRootDir(root, s, c);
    if src in host.dirs {
      host.Do(ListParent(src));
      host.RemoveTree(src);
    }
    host.MakeDir(src);
    var tracked := GetTrackedFilePaths(s, c.tree);
    host.CopySources(src, tracked);
  }

  /** `_run_locally`. */
  method RunLocally(s: Step, root: Path, c: Context, host: BuildHost) returns (ok: bool)
    modifies host
    ensures var r := RunLocallySpec(old(host.State()), s, root, c); host.State() == r.state && ok == r.ok
  {
    var args := GetCommandLineArgs(s, root, c);
    if args.Err? {
      return false;
    }
    var env := GetLocalEnv(s, root, c);
    ok := host.Check(Exec(args.value, env, SourceRootDir(root, s, c)), s.script in c.failing);
  }

  /** `_run_in_docker` of either class, and the `docker rm -f` after it. */
  method RunInDocker(s: Step, root: Path, c: Context, host: BuildHost) returns (ok: bool)
    requires RunsInDocker(s)
    modifies host
    ensures var r := RunInDockerSpec(old(host.State()), s, root, c); host.State() == r.state && ok == r.ok
  {
    var args := GetCommandLineArgs(s, root, c);
    if args.Err? {
      return false;
    }
    host.Do(DockerRemove(ContainerName));
    ok := host.Check(DockerRun(DockerRunArgs(s, s.baseImage.value, root, c, args.value)), s.script in c.failing);
    if !ok {
      return;
    }
    if s.kind == Environment {
      var id := Id(s, c);
      host.Commit(ContainerName, id);
      host.Save(id, JoinPath(TempOutputDir(root, s, c), id + ".tar"));
    }
    host.Do(DockerRemove(ContainerName));
  }

  /** `_run`. */
  method StepRun(s: Step, root: Path, c: Context, mode: ArchiveMode, previous: bool, host: BuildHost) returns (ok: bool)
    modifies host
    ensures var r := StepRunSpec(old(host.State()), s, root, c, mode, previous); host.State() == r.state && ok == r.ok
    decreases s, 2
  {
    if previous {
      ok := RunPrevious(s, root, c, mode, host);
      if !ok {
        return;
      }
    }
    ok := RunScript(s, root, c, host);
  }

  /** The loop over the dependency steps, then the base step. */
  method RunPrevious(s: Step, root: Path, c: Context, mode: ArchiveMode, host: BuildHost) returns (ok: bool)
    modifies host
    ensures var r := PreviousSpec(old(host.State()), s, root, c, mode); host.State() == r.state && ok == r.ok
    decreases s, 1
  {
    ghost var st0 := host.State();
    var i := 0;
    while i < |s.deps|
      invariant i <= |s.deps|
      invariant DepsSpec(st0, s, 0, root, c, mode) == DepsSpec(host.State(), s, i, root, c, mode)
    {
      ok := Run(s.deps[i], root, c, mode, host);
      if !ok {
        return;
      }
      i := i + 1;
    }
    ok := true;
    if s.baseStep.Some? {
      ok := Run(s.baseStep.value, root, c, mode, host);
    }
  }

  /** The info file, the isolated source root, and the script in docker or locally. */
  method RunScript(s: Step, root: Path, c: Context, host: BuildHost) returns (ok: bool)
    modifies host
    ensures var r := ScriptSpec(old(host.State()), s, root, c); host.State() == r.state && ok == r.ok
  {
    var info := JoinPath(TempOutputDir(root, s, c), "step_info.txt");
    host.WriteText(info, c.json(Info(s, c)));
    PrepareSourceRoot(s, root, c, host);
    if RunsInDocker(s) {
      ok := RunInDocker(s, root, c, host);
    } else {
      ok := RunLocally(s, root, c, host);
    }
  }

  /** `run` of either class. */
  method Run(s: Step, root: Path, c: Context, mode: ArchiveMode, host: BuildHost) returns (ok: bool)
    modifies host
    ensures var r := RunSpec(old(host.State()), s, root, c, mode); host.State() == r.state && ok == r.ok
    decreases s, 3
  {
    var out, tmp := OutputDir(root, s, c), TempOutputDir(root, s, c);
    var cached := out in host.dirs;
    if cached && s.kind == Artifact {
      return true;
    }
    if cached && RunsInDocker(s) {
      ok := LoadImage(Id(s, c), ImageArchive(mode, root, s, c), host);
      return;
    }
    if tmp in host.dirs {
      host.RemoveTree(tmp);
    }
    if cached {
      host.CopyTree(out, tmp);
    } else {
      host.MakeDir(tmp);
    }
    ok := StepRun(s, root, c, mode, !cached, host);
    if !ok {
      return;
    }
    if cached {
      host.RemoveTree(tmp);
    } else {
      host.Rename(tmp, out);
    }
  }

  /** `Builder.run`. */
  method BuilderRun(b: Builder, root: Path, c: Context, mode: ArchiveMode, host: BuildHost) returns (ok: bool)
    modifies host
    ensures var r := BuilderRunSpec(old(host.State()), b, root, c, mode); host.State() == r.state && ok == r.ok
  {
    ok := RunAll(b.cacheableSteps + b.usedSteps, root, c, mode, host);
  }

  /** The steps in order, stopping at the first that fails. */
  method RunAll(steps: seq<Step>, root: Path, c: Context, mode: ArchiveMode, host: BuildHost) returns (ok: bool)
    modifies host
    ensures var r := RunAllSpec(old(host.State()), steps, root, c, mode); host.State() == r.state && ok == r.ok
  {
    ghost var goal := RunAllSpec(host.State(), steps, root, c, mode);
    var i := 0;
    ok := true;
    while i < |steps|
      invariant i <= |steps|
      invariant goal == RunAllSpec(host.State(), steps[i..], root, c, mode)
    {
      RunAllStep(host.State(), steps, i, root, c, mode);
      ok := Run(steps[i], root, c, mode, host);
      if !ok {
        return;
      }
      i := i + 1;
    }
    assert steps[i..] == [];
  }

  /** Running the steps from the `i`-th on is running the `i`-th, then, if it succeeds, the rest. */
  lemma RunAllStep(st: BuildState, steps: seq<Step>, i: nat, root: Path, c: Context, mode: ArchiveMode)
    requires i < |steps|
    ensures RunAllSpec(st, steps[i..], root, c, mode) ==
      var r := RunSpec(st, steps[i], root, c, mode); if !r.ok then r else RunAllSpec(r.state, steps[i + 1..], root, c, mode)
  {
    assert steps[i..][0] == steps[i] && steps[i..][1..] == steps[i + 1..];
  }

  /** Running two lists of steps one after the other is running their concatenation. */
  lemma {:induction false} RunAllAppend(st: BuildState, a: seq<Step>, b: seq<Step>, root: Path, c: Context, mode: ArchiveMode)
    ensures RunAllSpec(st, a + b, root, c, mode) ==
      var r := RunAllSpec(st, a, root, c, mode); if !r.ok then r else RunAllSpec(r.state, b, root, c, mode)
    decreases |a|
  {
    if a == [] {
      assert a + b == b;
    } else {
      assert (a + b)[0] == a[0] && (a + b)[1..] == a[1..] + b;
      var r := RunSpec(st, a[0], root, c, mode);
      if r.ok {
        RunAllAppend(r.state, a[1..], b, root, c, mode);
      }
    }
  }

  /** `Builder.run` runs every cacheable step before any used step, and none of the used steps once
      a cacheable one failed. */
  lemma BuilderRunsCacheableFirst(st: BuildState, b: Builder, root: Path, c: Context, mode: ArchiveMode)
    ensures BuilderRunSpec(st, b, root, c, mode) ==
      var r := RunAllSpec(st, b.cacheableSteps, root, c, mode); if !r.ok then r else RunAllSpec(r.state, b.usedSteps, root, c, mode)
  {
    RunAllAppend(st, b.cacheableSteps, b.usedSteps, root, c, mode);
  }
}
