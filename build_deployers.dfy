/** agent_build/environment_deployers/deployers.py: deployers that may build on a base deployer.
    In Docker, the base deployer's image is deployed first, from the same base image, and the
    deployer's own container starts from it. Image names carry only the deployer's own checksum. */
module BuildDeployers {
  import opened Wrappers
  import opened Strings
  import opened Paths
  import opened Hashing
  import opened SourceTree
  import opened DockerHost
  import opened DeployerFiles

  /** `get_image_name(base_docker_image)`, given the checksum: a `:` of the base image becomes `_`. */
  function ImageName(name: string, checksum: string, baseImage: string): (r: string)
    ensures r == ImagePrefix + Lower(name) + "-" + Lower(checksum) + "-" + Lower(ReplaceChar(baseImage, ':', '_'))
    ensures StartsWith(r, ImagePrefix)
  {
    var tail := ReplaceChar(baseImage, ':', '_');
    LowerImageName(name, checksum, tail);
    var r := ImagePrefix + Lower(name) + "-" + Lower(checksum) + "-" + Lower(tail);
    assert r[..|ImagePrefix|] == ImagePrefix;
    Lower(ImagePrefix + name + "-" + checksum + "-" + tail)
  }

  /** The image name keeps the base image apart: with the same deployer name and checksum, two base
      images give the same name only when they agree up to case and `:` versus `_`. */
  lemma ImageNameDeterminedByBase(name: string, checksum: string, b1: string, b2: string)
    ensures ImageName(name, checksum, b1) == ImageName(name, checksum, b2)
      <==> Lower(ReplaceChar(b1, ':', '_')) == Lower(ReplaceChar(b2, ':', '_'))
  {
    var pre := ImagePrefix + Lower(name) + "-" + Lower(checksum) + "-";
    var t1, t2 := Lower(ReplaceChar(b1, ':', '_')), Lower(ReplaceChar(b2, ':', '_'));
    var r1, r2 := ImageName(name, checksum, b1), ImageName(name, checksum, b2);
    assert r1 == pre + t1 && r2 == pre + t2;
    if r1 == r2 {
      assert r1[|pre|..] == t1 && r2[|pre|..] == t2;
    }
  }

  class EnvironmentDeployer {
    const name: string
    const script: Path
    const usedFiles: seq<Path>
    const base: Option<EnvironmentDeployer>
    /** The length of the base chain below this deployer. */
    ghost const depth: nat
    /** `_used_files_checksum`: `None` until the checksum is first asked for. */
    var memo: Option<string>

    /** This deployer and all its base deployers. */
    ghost const Repr: set<EnvironmentDeployer>

    /** The base chain is finite: every base deployer sits lower than the one built on it, and the
        chain's objects are this deployer and its base deployer's chain. */
    ghost predicate Wf()
      decreases depth
    {
      && this in Repr
      && (base.None? ==> Repr == {this})
      && (base.Some? ==> base.value.depth < depth && base.value.Wf()
                         && Repr == {this} + base.value.Repr && this !in base.value.Repr)
    }

    function UsedFiles(t: Tree): seq<Path>
    {
      DeployerUsedFiles(script, usedFiles, t)
    }

    /** What `get_used_files_checksum` computes: this deployer's own files only. */
    function Checksum(m: Machine): string
    {
      DeployerChecksum(UsedFiles(m.tree), m.root, m.tree, m.h)
    }

    function ImageNameFor(baseImage: string, m: Machine): string
    {
      ImageName(name, Checksum(m), baseImage)
    }

    ghost predicate MemoValid(m: Machine)
      reads this
    {
      memo.Some? && memo.value != "" ==> memo.value == Checksum(m)
    }

    /** Every memo along the base chain is valid. */
    ghost predicate ChainMemoValid(m: Machine)
      requires Wf()
      reads Repr
    {
      forall x :: x in Repr ==> x.MemoValid(m)
    }

    constructor (name: string, script: Path, usedFiles: seq<Path>, base: Option<EnvironmentDeployer>)
      requires base.Some? ==> base.value.Wf()
      ensures this.name == name && this.script == script && this.usedFiles == usedFiles && this.base == base
      ensures memo == None && Wf()
      ensures forall m :: MemoValid(m)
    {
      this.name, this.script, this.usedFiles, this.base := name, script, usedFiles, base;
      depth := if base.Some? then base.value.depth + 1 else 0;
      Repr := {this} + if base.Some? then base.value.Repr else {};
      memo := None;
    }

    method GetUsedFiles(t: Tree) returns (r: seq<Path>)
      ensures r == UsedFiles(t)
    {
      r := CollectUsedFiles(script, usedFiles, t);
    }

    /** `get_used_files_checksum`: a truthy memoised value is returned as it is; otherwise the files
        are hashed and the result memoised. */
    method GetUsedFilesChecksum(m: Machine) returns (r: string)
      modifies this
      ensures old(memo).Some? && old(memo).value != "" ==> r == old(memo).value
      ensures !(old(memo).Some? && old(memo).value != "") ==> r == Checksum(m)
      ensures memo == Some(r)
      ensures old(MemoValid(m)) ==> r == Checksum(m) && MemoValid(m)
    {
      if memo.Some? && memo.value != "" {
        return memo.value;
      }
      var files := GetUsedFiles(m.tree);
      r := HashFiles(files, m.root, m.tree, m.h);
      memo := Some(r);
    }

    method GetImageName(baseImage: string, m: Machine) returns (r: string)
      requires MemoValid(m)
      modifies this
      ensures r == ImageNameFor(baseImage, m) && MemoValid(m)
    {
      var checksum := GetUsedFilesChecksum(m);
      r := Lower(ImagePrefix + name + "-" + checksum + "-" + ReplaceChar(baseImage, ':', '_'));
    }

    /** `deploy`: the script on the host, with the cache directory as its argument when one is given. */
    method Deploy(cacheDir: Option<Path>, m: Machine, host: Host) returns (ok: bool)
      modifies host
      ensures host.State() == Logged(old(host.State()), [Exec(ScriptCommand(script, cacheDir, m), map[])])
      ensures ok == (script !in m.failing)
    {
      var shell := if Suffix(script) == ".ps1" then "powershell" else m.bash;
      var command := [shell, JoinPath(m.root, script)];
      if cacheDir.Some? {
        command := command + [cacheDir.value];
      }
      assert command == ScriptCommand(script, cacheDir, m);
      ok := host.Exec(command, map[], script in m.failing);
    }

    /** `deploy_in_docker`, with the base deployer's deployment done first. */
    method DeployInDocker(baseImage: string, cacheDir: Option<Path>, m: Machine, host: Host) returns (ok: bool)
      requires Wf() && ChainMemoValid(m)
      modifies Repr, host
      ensures var r := DeployInDockerSpec(old(host.State()), this, baseImage, cacheDir, m);
        host.State() == r.state && ok == r.ok
      ensures ChainMemoValid(m)
      decreases depth
    {
      if base.Some? {
        var baseOk := base.value.DeployInDocker(baseImage, cacheDir, m, host);
        if !baseOk {
          return false;
        }
      }
      ok := DeployOwn(baseImage, cacheDir, m, host);
    }

    /** The rest of `deploy_in_docker`: the cache decision on this deployer's image name. */
    method DeployOwn(baseImage: string, cacheDir: Option<Path>, m: Machine, host: Host) returns (ok: bool)
      requires Wf() && ChainMemoValid(m)
      modifies Repr, host
      ensures var r := OwnStep(old(host.State()), this, baseImage, cacheDir, m);
        host.State() == r.state && ok == r.ok
      ensures ChainMemoValid(m)
    {
      var imageName, finalBase := ImageNames(baseImage, m);
      var files := GetUsedFiles(m.tree);
      var run := RunContainer(imageName, None, finalBase, VolumeOptions(files, m.root), [JoinPath(ContainerRoot, script)]);
      ok := host.RunCached(imageName, cacheDir, imageName, run, script in m.failing);
    }

    /** `get_image_name` of this deployer and of its base deployer, if any. */
    method ImageNames(baseImage: string, m: Machine) returns (imageName: string, finalBase: string)
      requires Wf() && ChainMemoValid(m)
      modifies Repr
      ensures imageName == ImageNameFor(baseImage, m) && finalBase == FinalBaseImage(this, baseImage, m)
      ensures ChainMemoValid(m)
    {
      imageName := GetImageName(baseImage, m);
      finalBase := baseImage;
      if base.Some? {
        finalBase := base.value.GetImageName(baseImage, m);
      }
    }
  }

  /** The image the container starts from: the base deployer's image when there is one. */
  function FinalBaseImage(d: EnvironmentDeployer, baseImage: string, m: Machine): string
  {
    if d.base.Some? then d.base.value.ImageNameFor(baseImage, m) else baseImage
  }

  /** The container `deploy_in_docker` starts: named after the image, with no platform option, every
      used file mounted below `/scalyr-agent-2`, the script as its command. */
  function ContainerRun(d: EnvironmentDeployer, baseImage: string, m: Machine): Command
  {
    RunContainer(d.ImageNameFor(baseImage, m), None, FinalBaseImage(d, baseImage, m),
      VolumeOptions(d.UsedFiles(m.tree), m.root), [JoinPath(ContainerRoot, d.script)])
  }

  /** The deployer's own part of `deploy_in_docker`: the cache decision on its image name, which
      also names the container. */
  function OwnStep(st: HostState, d: EnvironmentDeployer, baseImage: string, cacheDir: Option<Path>, m: Machine): Outcome
  {
    var tag := d.ImageNameFor(baseImage, m);
    BuildOrReuse(st, tag, cacheDir, tag, ContainerRun(d, baseImage, m), d.script in m.failing)
  }

  /** `deploy_in_docker`: the base chain first (a failure there stops everything), then this deployer. */
  function DeployInDockerSpec(st: HostState, d: EnvironmentDeployer, baseImage: string, cacheDir: Option<Path>, m: Machine): Outcome
    requires d.Wf()
    decreases d.depth
  {
    if d.base.None? then OwnStep(st, d, baseImage, cacheDir, m) else
      var pre := DeployInDockerSpec(st, d.base.value, baseImage, cacheDir, m);
      if !pre.ok then pre else OwnStep(pre.state, d, baseImage, cacheDir, m)
  }

  /** One cache decision appends to the log. */
  lemma OwnStepExtendsLog(st: HostState, d: EnvironmentDeployer, baseImage: string, cacheDir: Option<Path>, m: Machine)
    ensures st.log <= OwnStep(st, d, baseImage, cacheDir, m).state.log
  {
    var tag := d.ImageNameFor(baseImage, m);
    BuildOrReuseExtendsLog(st, tag, cacheDir, tag, ContainerRun(d, baseImage, m), d.script in m.failing);
  }

  /** The base deployer is deployed before this one: its whole effect comes first, and when it fails
      nothing of this deployer runs. */
  lemma BaseDeployedFirst(st: HostState, d: EnvironmentDeployer, baseImage: string, cacheDir: Option<Path>, m: Machine)
    requires d.Wf() && d.base.Some?
    ensures var pre := DeployInDockerSpec(st, d.base.value, baseImage, cacheDir, m);
      var r := DeployInDockerSpec(st, d, baseImage, cacheDir, m);
      && (!pre.ok ==> r == pre)
      && (pre.ok ==> r == OwnStep(pre.state, d, baseImage, cacheDir, m))
      && pre.state.log <= r.state.log
  {
    var pre := DeployInDockerSpec(st, d.base.value, baseImage, cacheDir, m);
    OwnStepExtendsLog(pre.state, d, baseImage, cacheDir, m);
  }

  /** A deployment appends to the log: whatever was logged before stays, in front. */
  lemma {:induction false} DeployExtendsLog(st: HostState, d: EnvironmentDeployer, baseImage: string, cacheDir: Option<Path>, m: Machine)
    requires d.Wf()
    ensures st.log <= DeployInDockerSpec(st, d, baseImage, cacheDir, m).state.log
    decreases d.depth
  {
    if d.base.Some? {
      DeployExtendsLog(st, d.base.value, baseImage, cacheDir, m);
      BaseDeployedFirst(st, d, baseImage, cacheDir, m);
    } else {
      OwnStepExtendsLog(st, d, baseImage, cacheDir, m);
    }
  }

  /** When a derived deployer builds, its container starts from the base deployer's image, which the
      base deployment has just made present. */
  lemma DerivedBuildStartsFromBaseImage(st: HostState, d: EnvironmentDeployer, baseImage: string, cacheDir: Option<Path>, m: Machine)
    requires d.Wf() && d.base.Some?
    requires ChainArchivesFaithful(st, d.base.value, baseImage, cacheDir, m)
    ensures var pre := DeployInDockerSpec(st, d.base.value, baseImage, cacheDir, m);
      var tag := d.ImageNameFor(baseImage, m);
      pre.ok && tag !in pre.state.images && !(cacheDir.Some? && IsFile(pre.state, cacheDir.value, tag)) ==>
        d.base.value.ImageNameFor(baseImage, m) in pre.state.images
        && ContainerRun(d, baseImage, m).image == d.base.value.ImageNameFor(baseImage, m)
        && DeployInDockerSpec(st, d, baseImage, cacheDir, m).state.log
             == pre.state.log + [ImageQuery(tag), RemoveContainer(tag), ContainerRun(d, baseImage, m)]
                + (if d.script in m.failing then [] else [Commit(tag, tag)])
                + (if d.script in m.failing || cacheDir.None? then [] else [Save(tag, JoinPath(cacheDir.value, tag))])
  {
    var pre := DeployInDockerSpec(st, d.base.value, baseImage, cacheDir, m);
    var tag := d.ImageNameFor(baseImage, m);
    DeployEstablishesChain(st, d.base.value, baseImage, cacheDir, m);
    BaseDeployedFirst(st, d, baseImage, cacheDir, m);
    if pre.ok && tag !in pre.state.images && !(cacheDir.Some? && IsFile(pre.state, cacheDir.value, tag)) {
      BuildSequence(pre.state, tag, cacheDir, tag, ContainerRun(d, baseImage, m), d.script in m.failing);
    }
  }

  /** Every deployer of the chain has its image; its archive, if any, holds that image. */
  ghost predicate ChainPresent(st: HostState, d: EnvironmentDeployer, baseImage: string, m: Machine)
    requires d.Wf()
    decreases d.depth
  {
    d.ImageNameFor(baseImage, m) in st.images && (d.base.Some? ==> ChainPresent(st, d.base.value, baseImage, m))
  }

  ghost predicate ChainArchivesFaithful(st: HostState, d: EnvironmentDeployer, baseImage: string, cacheDir: Option<Path>, m: Machine)
    requires d.Wf()
    decreases d.depth
  {
    ArchiveHoldsTag(st, d.ImageNameFor(baseImage, m), cacheDir)
      && (d.base.Some? ==> ChainArchivesFaithful(st, d.base.value, baseImage, cacheDir, m))
  }

  /** The queries a deployment that finds every image makes: base chain first. */
  function ChainQueries(d: EnvironmentDeployer, baseImage: string, m: Machine): (r: seq<Command>)
    requires d.Wf()
    ensures |r| >= 1 && r[|r| - 1] == ImageQuery(d.ImageNameFor(baseImage, m))
    decreases d.depth
  {
    (if d.base.Some? then ChainQueries(d.base.value, baseImage, m) else []) + [ImageQuery(d.ImageNameFor(baseImage, m))]
  }

  /** One cache decision keeps every image and every faithful archive along a chain. */
  lemma {:induction false} OwnStepKeepsChain(st: HostState, d: EnvironmentDeployer, baseImage: string, cacheDir: Option<Path>, m: Machine,
                                             e: EnvironmentDeployer)
    requires d.Wf() && e.Wf()
    requires ArchiveHoldsTag(st, d.ImageNameFor(baseImage, m), cacheDir) && ChainArchivesFaithful(st, e, baseImage, cacheDir, m)
    ensures var r := OwnStep(st, d, baseImage, cacheDir, m);
      st.images <= r.state.images && ChainArchivesFaithful(r.state, e, baseImage, cacheDir, m)
      && (ChainPresent(st, e, baseImage, m) ==> ChainPresent(r.state, e, baseImage, m))
    decreases e.depth
  {
    var tag := d.ImageNameFor(baseImage, m);
    BuildOrReuseKeepsArchives(st, tag, cacheDir, tag, ContainerRun(d, baseImage, m), d.script in m.failing, e.ImageNameFor(baseImage, m), cacheDir);
    if e.base.Some? {
      OwnStepKeepsChain(st, d, baseImage, cacheDir, m, e.base.value);
    }
  }

  /** A deployment keeps every image and every faithful archive along another chain. */
  lemma {:induction false} DeployKeepsChain(st: HostState, d: EnvironmentDeployer, baseImage: string, cacheDir: Option<Path>, m: Machine,
                                            e: EnvironmentDeployer)
    requires d.Wf() && e.Wf()
    requires ChainArchivesFaithful(st, d, baseImage, cacheDir, m) && ChainArchivesFaithful(st, e, baseImage, cacheDir, m)
    ensures var r := DeployInDockerSpec(st, d, baseImage, cacheDir, m);
      st.images <= r.state.images && ChainArchivesFaithful(r.state, e, baseImage, cacheDir, m)
      && (ChainPresent(st, e, baseImage, m) ==> ChainPresent(r.state, e, baseImage, m))
    decreases d.depth
  {
    if d.base.None? {
      OwnStepKeepsChain(st, d, baseImage, cacheDir, m, e);
    } else {
      var pre := DeployInDockerSpec(st, d.base.value, baseImage, cacheDir, m);
      DeployKeepsChain(st, d.base.value, baseImage, cacheDir, m, e);
      if pre.ok {
        DeployKeepsChain(st, d.base.value, baseImage, cacheDir, m, d);
        OwnStepKeepsChain(pre.state, d, baseImage, cacheDir, m, e);
      }
    }
  }

  /** A successful deployment leaves the image of every deployer of the chain in place. */
  lemma {:induction false} DeployEstablishesChain(st: HostState, d: EnvironmentDeployer, baseImage: string, cacheDir: Option<Path>, m: Machine)
    requires d.Wf() && ChainArchivesFaithful(st, d, baseImage, cacheDir, m)
    ensures var r := DeployInDockerSpec(st, d, baseImage, cacheDir, m);
      r.ok ==> ChainPresent(r.state, d, baseImage, m) && ChainArchivesFaithful(r.state, d, baseImage, cacheDir, m)
    decreases d.depth
  {
    var tag := d.ImageNameFor(baseImage, m);
    var pre := if d.base.Some? then DeployInDockerSpec(st, d.base.value, baseImage, cacheDir, m) else Outcome(st, true);
    if d.base.Some? {
      DeployEstablishesChain(st, d.base.value, baseImage, cacheDir, m);
      DeployKeepsChain(st, d.base.value, baseImage, cacheDir, m, d);
    }
    if pre.ok {
      BuildOrReuseIdempotent(pre.state, tag, cacheDir, tag, ContainerRun(d, baseImage, m), d.script in m.failing);
      if d.base.Some? {
        OwnStepKeepsChain(pre.state, d, baseImage, cacheDir, m, d.base.value);
      }
    }
  }

  /** With every image of the chain present, a deployment only queries the tags, base chain first. */
  lemma {:induction false} PresentChainOnlyQueries(st: HostState, d: EnvironmentDeployer, baseImage: string, cacheDir: Option<Path>, m: Machine)
    requires d.Wf() && ChainPresent(st, d, baseImage, m)
    ensures DeployInDockerSpec(st, d, baseImage, cacheDir, m) == Outcome(Logged(st, ChainQueries(d, baseImage, m)), true)
    decreases d.depth
  {
    var tag := d.ImageNameFor(baseImage, m);
    if d.base.None? {
      ExistingTagIsReused(st, tag, cacheDir, tag, ContainerRun(d, baseImage, m), d.script in m.failing);
    } else {
      var qs := ChainQueries(d.base.value, baseImage, m);
      PresentChainOnlyQueries(st, d.base.value, baseImage, cacheDir, m);
      var st1 := Logged(st, qs);
      ExistingTagIsReused(st1, tag, cacheDir, tag, ContainerRun(d, baseImage, m), d.script in m.failing);
      LoggedTwice(st, qs, [ImageQuery(tag)]);
    }
  }

  /** Re-deploying after a successful deployment rebuilds nothing, loads nothing and writes no cache
      file: it only queries each deployer's image, base chain first. */
  lemma RedeployIsIdempotent(st: HostState, d: EnvironmentDeployer, baseImage: string, cacheDir: Option<Path>, m: Machine)
    requires d.Wf() && ChainArchivesFaithful(st, d, baseImage, cacheDir, m)
    ensures var r := DeployInDockerSpec(st, d, baseImage, cacheDir, m);
      r.ok ==> DeployInDockerSpec(r.state, d, baseImage, cacheDir, m) == Outcome(Logged(r.state, ChainQueries(d, baseImage, m)), true)
  {
    DeployEstablishesChain(st, d, baseImage, cacheDir, m);
    var r := DeployInDockerSpec(st, d, baseImage, cacheDir, m);
    if r.ok { PresentChainOnlyQueries(r.state, d, baseImage, cacheDir, m); }
  }

  // ---------------------------------------------------------------------------------------------
  // The image name does not see the base deployer.

  /** The checkouts agree on this deployer's own inputs; the base deployer's files may differ. */
  ghost predicate SameOwnInputs(d: EnvironmentDeployer, m1: Machine, m2: Machine)
  {
    && m1.root == m2.root && m1.h == m2.h
    && SameLayout(d.usedFiles, m1.tree, m2.tree)
    && SameFiles(d.UsedFiles(m1.tree), m1.tree, m2.tree)
  }

  /** As written, a deployer's image name is the same for two checkouts that differ only in its base
      deployer's files, although the base deployer's own image name changes with them. */
  lemma DerivedNameIgnoresBase(d: EnvironmentDeployer, baseImage: string, m1: Machine, m2: Machine)
    requires SameOwnInputs(d, m1, m2)
    ensures d.ImageNameFor(baseImage, m1) == d.ImageNameFor(baseImage, m2)
  {
    DeployerChecksumSameInputs(d.script, d.usedFiles, m1.root, m1.tree, m2.tree, m1.h);
  }

  /** ... so after the base deployer's files change, the derived image built on the old base image is
      reused: finding it present, the deployment only queries it, whatever the base deployment did. */
  lemma StaleDerivedImageIsReused(st: HostState, d: EnvironmentDeployer, baseImage: string, cacheDir: Option<Path>, m: Machine)
    requires d.Wf() && d.base.Some?
    ensures var pre := DeployInDockerSpec(st, d.base.value, baseImage, cacheDir, m);
      var tag := d.ImageNameFor(baseImage, m);
      pre.ok && tag in pre.state.images ==>
        DeployInDockerSpec(st, d, baseImage, cacheDir, m) == Outcome(Logged(pre.state, [ImageQuery(tag)]), true)
  {
    var pre := DeployInDockerSpec(st, d.base.value, baseImage, cacheDir, m);
    var tag := d.ImageNameFor(baseImage, m);
    BaseDeployedFirst(st, d, baseImage, cacheDir, m);
    if pre.ok && tag in pre.state.images {
      ExistingTagIsReused(pre.state, tag, cacheDir, tag, ContainerRun(d, baseImage, m), d.script in m.failing);
    }
  }

  /** The checksum the image name should carry: this deployer's files followed by its base deployer's
      (so seeded) checksum, as the later deployment steps do with their predecessor. */
  function SeededChecksum(d: EnvironmentDeployer, m: Machine): string
    requires d.Wf()
    decreases d.depth
  {
    var own := DeployerChunks(d.UsedFiles(m.tree), m.root, m.tree);
    Digest(m.h, own + if d.base.Some? then [SeededChecksum(d.base.value, m)] else [])
  }

  function SeededImageNameFor(d: EnvironmentDeployer, baseImage: string, m: Machine): string
    requires d.Wf()
  {
    ImageName(d.name, SeededChecksum(d, m), baseImage)
  }

  predicate NoUpper(s: string) { forall i :: 0 <= i < |s| ==> !IsUpper(s[i]) }

  /** With the seeded checksum, a change below the base deployer reaches the derived image name: two
      checkouts that agree on the deployer's own files but give its base different (seeded)
      checksums give it different image names, if the hash does not collide there and, as a hex
      digest, has no uppercase letters. */
  lemma SeededNameSeesBase(d: EnvironmentDeployer, baseImage: string, m1: Machine, m2: Machine)
    requires d.Wf() && d.base.Some? && SameOwnInputs(d, m1, m2)
    requires SeededChecksum(d.base.value, m1) != SeededChecksum(d.base.value, m2)
    requires var own := DeployerChunks(d.UsedFiles(m1.tree), m1.root, m1.tree);
      CollisionFree(m1.h, Flatten(own + [SeededChecksum(d.base.value, m1)]), Flatten(own + [SeededChecksum(d.base.value, m2)]))
    requires NoUpper(SeededChecksum(d, m1)) && NoUpper(SeededChecksum(d, m2))
    ensures SeededImageNameFor(d, baseImage, m1) != SeededImageNameFor(d, baseImage, m2)
  {
    DeployerChecksumSameInputs(d.script, d.usedFiles, m1.root, m1.tree, m2.tree, m1.h);
    var own := DeployerChunks(d.UsedFiles(m1.tree), m1.root, m1.tree);
    assert DeployerChunks(d.UsedFiles(m2.tree), m2.root, m2.tree) == own by {
      DeployerChunksSameFiles(d.UsedFiles(m1.tree), m1.root, m1.tree, m2.tree);
    }
    LastChunkChangesDigest(m1.h, own, SeededChecksum(d.base.value, m1), SeededChecksum(d.base.value, m2));
    var c1, c2 := SeededChecksum(d, m1), SeededChecksum(d, m2);
    LowerOfLower(c1);
    LowerOfLower(c2);
    ImageNameDeterminedByChecksum(d.name, c1, c2, baseImage);
  }

  /** For one deployer and base image, the image name changes exactly when the (lowercased) checksum does. */
  lemma ImageNameDeterminedByChecksum(name: string, c1: string, c2: string, baseImage: string)
    ensures ImageName(name, c1, baseImage) == ImageName(name, c2, baseImage) <==> Lower(c1) == Lower(c2)
  {
    ChecksumPartDetermined(Lower(name), Lower(c1), Lower(c2), Lower(ReplaceChar(baseImage, ':', '_')));
  }

  // ---------------------------------------------------------------------------------------------
  // The concrete deployers.

  const DeployersDir: Path := "agent_build/environment_deployers"
  const BaseEnvironmentUsedFiles: seq<Path> := [
    "agent_build/requirements.txt",
    "agent_build/monitors_requirements.txt",
    "dev-requirements.txt",
    "benchmarks/micro/requirements-compression-algorithms.txt"]

  /** `PYTHON_ENVIRONMENT_DEPLOYER`, `BASE_ENVIRONMENT_DEPLOYER` (its script chosen by `platform.system()`)
      and the `DEPLOYERS` map of them by name. */
  method NewDeployers(system: string) returns (python: EnvironmentDeployer, baseEnv: EnvironmentDeployer,
                                               deployers: map<string, EnvironmentDeployer>)
    ensures python.Wf() && baseEnv.Wf() && fresh(python) && fresh(baseEnv)
    ensures python.name == "python" && python.script == DeployersDir + "/install_python_and_ruby.sh"
    ensures python.usedFiles == [] && python.base == None
    ensures baseEnv.name == "base_environment" && baseEnv.usedFiles == BaseEnvironmentUsedFiles && baseEnv.base == Some(python)
    ensures baseEnv.script == DeployersDir + (if system != "Windows" then "/deploy_base_environment.sh" else "/deploy_agent_windows_builder.ps1")
    ensures deployers == map["python" := python, "base_environment" := baseEnv]
    ensures forall m :: python.ChainMemoValid(m) && baseEnv.ChainMemoValid(m)
  {
    python := new EnvironmentDeployer("python", DeployersDir + "/install_python_and_ruby.sh", [], None);
    var script := if system != "Windows" then DeployersDir + "/deploy_base_environment.sh" else DeployersDir + "/deploy_agent_windows_builder.ps1";
    baseEnv := new EnvironmentDeployer("base_environment", script, BaseEnvironmentUsedFiles, Some(python));
    deployers := map[python.name := python, baseEnv.name := baseEnv];
  }
}
