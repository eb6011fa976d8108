/** agent_tools/environment_deployers.py: a deployer is a script plus the files it uses. It runs
    the script on the host, or in a container that it commits as the image tag the caller names.
    The checksum of its files is memoised in the object. */
module ToolsDeployers {
  import opened Wrappers
  import opened Strings
  import opened Paths
  import opened SourceTree
  import opened DockerHost
  import opened ToolsConstants
  import opened DeployerFiles

  /** `get_image_name`, given the checksum: the prefix, the name, the checksum and the architecture
      value, dash-separated and lowercased. The architecture value needs no lowering. */
  function ImageName(name: string, checksum: string, arch: Architecture): (r: string)
    ensures r == ImagePrefix + Lower(name) + "-" + Lower(checksum) + "-" + ArchValue(arch)
    ensures StartsWith(r, ImagePrefix) && EndsWith(r, ArchValue(arch))
  {
    ArchValueIsLower(arch);
    ImageNameShape(name, checksum, ArchValue(arch));
    Lower(ImagePrefix + name + "-" + checksum + "-" + ArchValue(arch))
  }

  lemma ArchValueIsLower(arch: Architecture)
    ensures forall i :: 0 <= i < |ArchValue(arch)| ==> !IsUpper(ArchValue(arch)[i])
  {
  }

  /** Lowercasing the dash-joined parts lowercases the name and the checksum and keeps the prefix and
      a lowercase tail. */
  lemma ImageNameShape(name: string, checksum: string, tail: string)
    requires forall i :: 0 <= i < |tail| ==> !IsUpper(tail[i])
    ensures var r := Lower(ImagePrefix + name + "-" + checksum + "-" + tail);
      && r == ImagePrefix + Lower(name) + "-" + Lower(checksum) + "-" + tail
      && StartsWith(r, ImagePrefix) && EndsWith(r, tail)
  {
    LowerImageName(name, checksum, tail);
    LowerOfLower(tail);
    var x1 := ImagePrefix + Lower(name);
    var x2 := x1 + "-";
    var x3 := x2 + Lower(checksum);
    var x4 := x3 + "-";
    assert StartsWith(x1, ImagePrefix) by { assert x1[..|ImagePrefix|] == ImagePrefix; }
    StartsWithConcat(x1, ImagePrefix, "-");
    StartsWithConcat(x2, ImagePrefix, Lower(checksum));
    StartsWithConcat(x3, ImagePrefix, "-");
    StartsWithConcat(x4, ImagePrefix, tail);
    EndsWithConcat(x4, tail);
  }

  /** For one deployer and architecture, the image name changes exactly when the (lowercased)
      checksum does. */
  lemma ImageNameDeterminedByChecksum(name: string, c1: string, c2: string, arch: Architecture)
    ensures ImageName(name, c1, arch) == ImageName(name, c2, arch) <==> Lower(c1) == Lower(c2)
  {
    ChecksumPartDetermined(Lower(name), Lower(c1), Lower(c2), ArchValue(arch));
  }

  /** Images of the two architectures never share a name, whatever the deployers' names and checksums. */
  lemma ImageNameSeparatesArchitectures(n1: string, c1: string, n2: string, c2: string)
    ensures ImageName(n1, c1, X86_64) != ImageName(n2, c2, ARM64)
  {
    var x, y := ArchValue(X86_64), ArchValue(ARM64);
    assert x[|x| - |y|..] != y by { assert x[|x| - |y|] == '8' && y[0] == 'a'; }
    EndingsApart(ImageName(n1, c1, X86_64), ImageName(n2, c2, ARM64), x, y);
  }

  /** Texts whose endings disagree differ. */
  lemma EndingsApart(a: string, b: string, x: string, y: string)
    requires EndsWith(a, x) && EndsWith(b, y) && |y| <= |x| && x[|x| - |y|..] != y
    ensures a != b
  {
    assert a[|a| - |y|..] == a[|a| - |x|..][|x| - |y|..];
  }

  class EnvironmentDeployer {
    const name: string
    const script: Path
    const usedFiles: seq<Path>
    /** `_used_files_checksum`: `None` until the checksum is first asked for. */
    var memo: Option<string>

    /** `_get_used_files` over the checkout. */
    function UsedFiles(t: Tree): seq<Path>
    {
      DeployerUsedFiles(script, usedFiles, t)
    }

    /** What `get_used_files_checksum` computes when nothing is memoised. */
    function Checksum(m: Machine): string
    {
      DeployerChecksum(UsedFiles(m.tree), m.root, m.tree, m.h)
    }

    /** A memoised (truthy) checksum is the checksum of the checkout. */
    ghost predicate MemoValid(m: Machine)
      reads this
    {
      memo.Some? && memo.value != "" ==> memo.value == Checksum(m)
    }

    /** `used_files or []`: an absent list is the empty one. */
    constructor (name: string, script: Path, usedFiles: seq<Path>)
      ensures this.name == name && this.script == script && this.usedFiles == usedFiles
      ensures memo == None
      ensures forall m :: MemoValid(m)
    {
      this.name, this.script, this.usedFiles := name, script, usedFiles;
      memo := None;
    }

    method GetUsedFiles(t: Tree) returns (r: seq<Path>)
      ensures r == UsedFiles(t)
    {
      r := CollectUsedFiles(script, usedFiles, t);
    }

    /** `get_used_files_checksum`: a truthy memoised value is returned as it is; otherwise the files
        are hashed and the result memoised. */
    method GetUsedFilesChecksum(m: Machine) returns (r: string)
      modifies this
      ensures old(memo).Some? && old(memo).value != "" ==> r == old(memo).value
      ensures !(old(memo).Some? && old(memo).value != "") ==> r == Checksum(m)
      ensures memo == Some(r)
      ensures old(MemoValid(m)) ==> r == Checksum(m) && MemoValid(m)
    {
      if memo.Some? && memo.value != "" {
        return memo.value;
      }
      var files := GetUsedFiles(m.tree);
      r := HashFiles(files, m.root, m.tree, m.h);
      memo := Some(r);
    }

    /** `get_image_name(architecture)`. */
    method GetImageName(arch: Architecture, m: Machine) returns (r: string)
      requires MemoValid(m)
      modifies this
      ensures r == ImageName(name, Checksum(m), arch) && MemoValid(m)
    {
      var checksum := GetUsedFilesChecksum(m);
      r := Lower(ImagePrefix + name + "-" + checksum + "-" + ArchValue(arch));
    }

    /** The container `run_in_docker` starts: named after the deployer's image, on the architecture's
        Docker platform, every used file mounted below `/scalyr-agent-2`, the script as its command. */
    function ContainerRun(baseImage: string, arch: Architecture, m: Machine): Command
    {
      var container := ImageName(name, Checksum(m), arch);
      RunContainer(container, Some(PlatformValue(AsDockerPlatform(arch))), baseImage,
        VolumeOptions(UsedFiles(m.tree), m.root), [JoinPath(ContainerRoot, script)])
    }

    /** `run_in_docker`: the cache decision on the caller's tag, with the container named after the
        deployer's own image name. */
    function RunInDockerSpec(st: HostState, baseImage: string, resultImageName: string, arch: Architecture,
                             cacheDir: Option<Path>, m: Machine): Outcome
    {
      BuildOrReuse(st, resultImageName, cacheDir, ImageName(name, Checksum(m), arch),
        ContainerRun(baseImage, arch, m), script in m.failing)
    }

    /** `run`: the script on the host, with the cache directory as its argument when one is given. */
    method Run(cacheDir: Option<Path>, m: Machine, host: Host) returns (ok: bool)
      modifies host
      ensures host.State() == Logged(old(host.State()), [Exec(ScriptCommand(script, cacheDir, m), map[])])
      ensures ok == (script !in m.failing)
    {
      var shell := if Suffix(script) == ".ps1" then "powershell" else m.bash;
      var command := [shell, JoinPath(m.root, script)];
      if cacheDir.Some? {
        command := command + [cacheDir.value];
      }
      assert command == ScriptCommand(script, cacheDir, m);
      ok := host.Exec(command, map[], script in m.failing);
    }

    method RunInDocker(baseImage: string, resultImageName: string, arch: Architecture,
                       cacheDir: Option<Path>, m: Machine, host: Host) returns (ok: bool)
      requires MemoValid(m)
      modifies this, host
      ensures var r := RunInDockerSpec(old(host.State()), baseImage, resultImageName, arch, cacheDir, m);
        host.State() == r.state && ok == r.ok
      ensures MemoValid(m)
    {
      var files := GetUsedFiles(m.tree);
      var volumes := VolumeOptions(files, m.root);
      var container := GetImageName(arch, m);
      var run := RunContainer(container, Some(PlatformValue(AsDockerPlatform(arch))), baseImage,
        volumes, [JoinPath(ContainerRoot, script)]);
      ok := host.RunCached(resultImageName, cacheDir, container, run, script in m.failing);
    }
  }

  /** An existing tag means nothing but the query happens. */
  lemma RunInDockerReusesImage(d: EnvironmentDeployer, st: HostState, baseImage: string, tag: string,
                               arch: Architecture, cacheDir: Option<Path>, m: Machine)
    requires tag in st.images
    ensures d.RunInDockerSpec(st, baseImage, tag, arch, cacheDir, m) == Outcome(Logged(st, [ImageQuery(tag)]), true)
  {
    ExistingTagIsReused(st, tag, cacheDir, ImageName(d.name, d.Checksum(m), arch), d.ContainerRun(baseImage, arch, m), d.script in m.failing);
  }

  /** A cached archive of the tag means only `docker load` follows the query. */
  lemma RunInDockerLoadsArchive(d: EnvironmentDeployer, st: HostState, baseImage: string, tag: string,
                                arch: Architecture, dir: Path, m: Machine)
    requires tag !in st.images && IsFile(st, dir, tag) && ArchiveHoldsTag(st, tag, Some(dir))
    ensures var r := d.RunInDockerSpec(st, baseImage, tag, arch, Some(dir), m);
      r.ok && r.state == HostState(st.images + {tag}, st.dirs, st.log + [ImageQuery(tag), Load(JoinPath(dir, tag))])
  {
    CachedArchiveIsLoaded(st, tag, dir, ImageName(d.name, d.Checksum(m), arch), d.ContainerRun(baseImage, arch, m), d.script in m.failing);
  }

  /** Otherwise the container named after the deployer image is replaced, run from the base image, and
      committed as the caller's tag, which is saved when a cache directory is given. */
  lemma RunInDockerBuilds(d: EnvironmentDeployer, st: HostState, baseImage: string, tag: string,
                          arch: Architecture, cacheDir: Option<Path>, m: Machine)
    requires tag !in st.images && !(cacheDir.Some? && IsFile(st, cacheDir.value, tag))
    requires d.script !in m.failing
    ensures var container := ImageName(d.name, d.Checksum(m), arch);
      var r := d.RunInDockerSpec(st, baseImage, tag, arch, cacheDir, m);
      && r.ok && tag in r.state.images
      && r.state.log == st.log + [ImageQuery(tag), RemoveContainer(container), d.ContainerRun(baseImage, arch, m), Commit(container, tag)]
           + (if cacheDir.None? then [] else [Save(tag, JoinPath(cacheDir.value, tag))])
  {
    var container, run := ImageName(d.name, d.Checksum(m), arch), d.ContainerRun(baseImage, arch, m);
    BuildSequence(st, tag, cacheDir, container, run, false);
    FourSteps(st.log, ImageQuery(tag), RemoveContainer(container), run, Commit(container, tag),
      if cacheDir.None? then [] else [Save(tag, JoinPath(cacheDir.value, tag))]);
  }

  lemma FourSteps<T>(log: seq<T>, a: T, b: T, c: T, d: T, rest: seq<T>)
    ensures log + [a, b, c] + [d] + rest == log + [a, b, c, d] + rest
  {
    assert log + [a, b, c] + [d] == log + [a, b, c, d];
  }
}
