/** The machine the deployment code drives: the local Docker daemon's image tags, the directories
    on disk (each with its files), and the log of external commands started, in order.
    A command's outcome is an input: a script either succeeds or fails. */
module DockerHost {
  import opened Wrappers
  import opened Paths

  datatype Command =
    | Exec(args: seq<string>, env: map<string, string>)   // a local `subprocess.check_call`
    | ImageQuery(tag: string)                             // docker images -q <tag>
    | Load(archive: Path)                                 // docker load -i <archive>
    | RemoveContainer(name: string)                       // docker rm -f <name>
    | RunContainer(name: string, platform: Option<string>, image: string, options: seq<string>, cmd: seq<string>)
    | Commit(container: string, tag: string)              // docker commit <container> <tag>
    | Save(tag: string, archive: Path)                    // docker save <tag> > <archive>

  /** A directory's regular files: name -> content. A saved image archive holds the saved tag. */
  type Files = map<string, string>

  datatype HostState = HostState(images: set<string>, dirs: map<Path, Files>, log: seq<Command>)

  datatype Outcome = Outcome(state: HostState, ok: bool)

  function Logged(st: HostState, cmds: seq<Command>): (r: HostState)
    ensures r.images == st.images && r.dirs == st.dirs && r.log == st.log + cmds
  {
    st.(log := st.log + cmds)
  }

  lemma LoggedTwice(st: HostState, a: seq<Command>, b: seq<Command>)
    ensures Logged(Logged(st, a), b) == Logged(st, a + b)
  {
    assert st.log + a + b == st.log + (a + b);
  }

  /** Where the source tree is mounted inside a build container. */
  const ContainerRoot: Path := "/scalyr-agent-2"

  /** `-v host:container` for every used file. */
  function VolumeOptions(files: seq<Path>, root: Path): (r: seq<string>)
    ensures |r| == 2 * |files|
  {
    if files == [] then [] else ["-v", JoinPath(root, files[0]) + ":" + JoinPath(ContainerRoot, files[0])] + VolumeOptions(files[1..], root)
  }

  /** Whether `dir/name` is a regular file. */
  predicate IsFile(st: HostState, dir: Path, name: string)
  {
    dir in st.dirs && name in st.dirs[dir]
  }

  /** `mkdir(parents=True, exist_ok=True)` on `dir`, then writing `content` to `dir/name`. */
  function WriteFile(st: HostState, dir: Path, name: string, content: string): (r: HostState)
    ensures IsFile(r, dir, name) && r.dirs[dir][name] == content
    ensures r.images == st.images && r.log == st.log
    ensures forall d :: d in st.dirs && d != dir ==> d in r.dirs && r.dirs[d] == st.dirs[d]
    ensures r.dirs.Keys == st.dirs.Keys + {dir}
  {
    var old_files := if dir in st.dirs then st.dirs[dir] else map[];
    st.(dirs := st.dirs[dir := old_files[name := content]])
  }

  /** `docker load -i dir/name`: restores the archived tag, or fails when the file is absent. */
  function LoadArchive(st: HostState, dir: Path, name: string): (r: Outcome)
    ensures r.state.log == st.log + [Load(JoinPath(dir, name))] && r.state.dirs == st.dirs
    ensures r.ok <==> IsFile(st, dir, name)
    ensures r.ok ==> r.state.images == st.images + {st.dirs[dir][name]}
    ensures !r.ok ==> r.state.images == st.images
  {
    var st' := Logged(st, [Load(JoinPath(dir, name))]);
    if IsFile(st, dir, name) then Outcome(st'.(images := st.images + {st.dirs[dir][name]}), true)
    else Outcome(st', false)
  }

  /** The image cache decision shared by every deployer generation:
      an existing tag is reused; otherwise an archive `cacheDir/tag` is loaded; otherwise the
      container is built from scratch, committed as `tag`, and saved into `cacheDir` when one is given. */
  function BuildOrReuse(st: HostState, tag: string, cacheDir: Option<Path>, container: string,
                        run: Command, scriptFails: bool): (r: Outcome)
  {
    var queried := Logged(st, [ImageQuery(tag)]);
    if tag in st.images then Outcome(queried, true)
    else if cacheDir.Some? && IsFile(st, cacheDir.value, tag) then
      LoadArchive(queried, cacheDir.value, tag)
    else
      var started := Logged(queried, [RemoveContainer(container), run]);
      if scriptFails then Outcome(started, false)
      else
        var committed := Logged(started, [Commit(container, tag)]).(images := st.images + {tag});
        if cacheDir.Some? then
          Outcome(Logged(WriteFile(committed, cacheDir.value, tag, tag), [Save(tag, JoinPath(cacheDir.value, tag))]), true)
        else Outcome(committed, true)
  }

  /** The archive `cacheDir/tag`, if there is one, holds the image `tag` itself. */
  ghost predicate ArchiveHoldsTag(st: HostState, tag: string, cacheDir: Option<Path>)
  {
    cacheDir.Some? && IsFile(st, cacheDir.value, tag) ==> st.dirs[cacheDir.value][tag] == tag
  }

  /** An existing tag short-circuits everything: only the query is made. */
  lemma ExistingTagIsReused(st: HostState, tag: string, cacheDir: Option<Path>, container: string, run: Command, fails: bool)
    requires tag in st.images
    ensures BuildOrReuse(st, tag, cacheDir, container, run, fails) == Outcome(Logged(st, [ImageQuery(tag)]), true)
  {
  }

  /** A cached archive means only `docker load` happens after the query. */
  lemma CachedArchiveIsLoaded(st: HostState, tag: string, dir: Path, container: string, run: Command, fails: bool)
    requires tag !in st.images && IsFile(st, dir, tag) && ArchiveHoldsTag(st, tag, Some(dir))
    ensures var r := BuildOrReuse(st, tag, Some(dir), container, run, fails);
      r.ok && r.state == HostState(st.images + {tag}, st.dirs, st.log + [ImageQuery(tag), Load(JoinPath(dir, tag))])
  {
  }

  /** Without an image or an archive, the build runs rm, run, commit in that order, and an archive is
      written exactly when a cache directory was given and the script succeeded. */
  lemma BuildSequence(st: HostState, tag: string, cacheDir: Option<Path>, container: string, run: Command, fails: bool)
    requires tag !in st.images && !(cacheDir.Some? && IsFile(st, cacheDir.value, tag))
    ensures var r := BuildOrReuse(st, tag, cacheDir, container, run, fails);
      && r.ok == !fails
      && r.state.log == st.log + [ImageQuery(tag), RemoveContainer(container), run]
           + (if fails then [] else [Commit(container, tag)])
           + (if fails || cacheDir.None? then [] else [Save(tag, JoinPath(cacheDir.value, tag))])
      && r.state.images == (if fails then st.images else st.images + {tag})
      && (r.state.dirs == st.dirs <==> fails || cacheDir.None? || (cacheDir.value in st.dirs && st.dirs[cacheDir.value] == st.dirs[cacheDir.value][tag := tag]))
      && (!fails && cacheDir.Some? ==> IsFile(r.state, cacheDir.value, tag) && r.state.dirs[cacheDir.value][tag] == tag)
  {
  }

  /** A successful run leaves the tag present, keeps the archive faithful, and a second run is a pure lookup. */
  lemma BuildOrReuseIdempotent(st: HostState, tag: string, cacheDir: Option<Path>, container: string, run: Command, fails: bool)
    requires ArchiveHoldsTag(st, tag, cacheDir)
    ensures var r := BuildOrReuse(st, tag, cacheDir, container, run, fails);
      r.ok ==> (tag in r.state.images && ArchiveHoldsTag(r.state, tag, cacheDir)
        && BuildOrReuse(r.state, tag, cacheDir, container, run, fails) == Outcome(Logged(r.state, [ImageQuery(tag)]), true))
  {
  }

  /** A run keeps every image and leaves every faithful archive faithful. */
  lemma BuildOrReuseKeepsArchives(st: HostState, tag: string, dir: Option<Path>, c: string, run: Command, fails: bool, tag2: string, dir2: Option<Path>)
    requires ArchiveHoldsTag(st, tag, dir) && ArchiveHoldsTag(st, tag2, dir2)
    ensures var r := BuildOrReuse(st, tag, dir, c, run, fails);
      ArchiveHoldsTag(r.state, tag2, dir2) && st.images <= r.state.images
  {
  }

  /** The decision only appends to the log. */
  lemma BuildOrReuseExtendsLog(st: HostState, tag: string, cacheDir: Option<Path>, container: string, run: Command, fails: bool)
    ensures st.log <= BuildOrReuse(st, tag, cacheDir, container, run, fails).state.log
  {
    var r := BuildOrReuse(st, tag, cacheDir, container, run, fails);
    assert r.state.log == st.log + r.state.log[|st.log|..];
  }

  /** The cache directory is written only when it is given. */
  lemma NoCacheDirNoArchive(st: HostState, tag: string, container: string, run: Command, fails: bool)
    ensures BuildOrReuse(st, tag, None, container, run, fails).state.dirs == st.dirs
  {
  }

  /** The host as one mutable object. */
  class Host {
    var images: set<string>
    var dirs: map<Path, Files>
    var log: seq<Command>

    function State(): HostState
      reads this
    {
      HostState(images, dirs, log)
    }

    constructor (st: HostState)
      ensures State() == st
    {
      images, dirs, log := st.images, st.dirs, st.log;
    }

    /** `subprocess.check_call(args, env=env)` of a script that succeeds unless `fails`. */
    method Exec(args: seq<string>, env: map<string, string>, fails: bool) returns (ok: bool)
      modifies this
      ensures State() == Logged(old(State()), [Command.Exec(args, env)]) && ok == !fails
    {
      log := log + [Command.Exec(args, env)];
      ok := !fails;
    }

    /** The decision procedure as the source writes it, with its `save_to_cache` flag. */
    method RunCached(tag: string, cacheDir: Option<Path>, container: string, run: Command, scriptFails: bool)
      returns (ok: bool)
      modifies this
      ensures var r := BuildOrReuse(old(State()), tag, cacheDir, container, run, scriptFails);
        State() == r.state && ok == r.ok
    {
      log := log + [ImageQuery(tag)];
      if tag in images {
        return true;
      }
      var saveToCache := false;
      if cacheDir.Some? {
        if IsFile(State(), cacheDir.value, tag) {
          log := log + [Load(JoinPath(cacheDir.value, tag))];
          images := images + {dirs[cacheDir.value][tag]};
          return true;
        } else {
          saveToCache := true;
        }
      }
      log := log + [RemoveContainer(container), run];
      if scriptFails {
        return false;
      }
      log := log + [Commit(container, tag)];
      images := images + {tag};
      if cacheDir.Some? && saveToCache {
        var files := if cacheDir.value in dirs then dirs[cacheDir.value] else map[];
        dirs := dirs[cacheDir.value := files[tag := tag]];
        log := log + [Save(tag, JoinPath(cacheDir.value, tag))];
      }
      ok := true;
    }
  }
}
