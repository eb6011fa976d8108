/** agent_tools/build_and_test_specs.py: deployments chain environment deployers. A deployment is
    named after its whole chain, is cached under its name and checksum, and a module-level registry
    keeps one deployment per name. Package build specs and package test specs are named after their
    package type, target system and architecture. */
module BuildAndTestSpecs {
  import opened Wrappers
  import opened Strings
  import opened Paths
  import opened Hashing
  import opened SourceTree
  import opened DockerHost
  import opened ToolsConstants
  import opened DeployerFiles
  import PackageBuilders
  import ToolsDeployers

  type Deployer = ToolsDeployers.EnvironmentDeployer

  /** `InitialDeployment` (first deployer, architecture, optional initial image) or
      `FollowingDeployment` (deployer run on top of the previous deployment). */
  datatype Deployment =
    | Initial(deployer: Deployer, arch: Architecture, initialImage: Option<string>)
    | Following(deployer: Deployer, previous: Deployment)

  /** `architecture`: inherited down the chain from the initial deployment. */
  function DeploymentArch(d: Deployment): Architecture
  {
    match d
    case Initial(_, a, _) => a
    case Following(_, p) => DeploymentArch(p)
  }

  /** `initial_docker_image`: inherited down the chain from the initial deployment. */
  function InitialDockerImage(d: Deployment): Option<string>
  {
    match d
    case Initial(_, _, image) => image
    case Following(_, p) => InitialDockerImage(p)
  }

  predicate InDocker(d: Deployment)
  {
    InitialDockerImage(d).Some?
  }

  /** The initial deployment at the bottom of the chain. */
  function First(d: Deployment): (r: Deployment)
    ensures r.Initial?
  {
    match d
    case Initial(_, _, _) => d
    case Following(_, p) => First(p)
  }

  /** A following deployment runs on the architecture and initial image of the chain's initial deployment. */
  lemma {:induction false} InheritedFromFirst(d: Deployment)
    ensures DeploymentArch(d) == First(d).arch && InitialDockerImage(d) == First(d).initialImage
  {
    match d
    case Initial(_, _, _) =>
    case Following(_, p) => InheritedFromFirst(p);
  }

  /** `name`: `<deployer>_<arch>[_<image with ':' replaced by '_'>]` for the initial deployment,
      `<deployer>_<previous name>` for a following one. */
  function DeploymentName(d: Deployment): string
  {
    match d
    case Initial(x, a, image) =>
      var n := x.name + "_" + ArchValue(a);
      if image.Some? then n + "_" + ReplaceChar(image.value, ':', '_') else n
    case Following(x, p) => x.name + "_" + DeploymentName(p)
  }

  /** The deployers' names from the last to the first. */
  function DeployerNames(d: Deployment): (r: seq<string>)
    ensures |r| >= 1
  {
    match d
    case Initial(x, _, _) => [x.name]
    case Following(x, p) => [x.name] + DeployerNames(p)
  }

  /** The parts of a name after the deployers' names. */
  function InitialParts(arch: Architecture, image: Option<string>): (r: seq<string>)
  {
    [ArchValue(arch)] + if image.Some? then [ReplaceChar(image.value, ':', '_')] else []
  }

  /** The name encodes the whole chain: every deployer's name, the last first, then the architecture
      and the initial image, joined by underscores. */
  lemma {:induction false} NameEncodesChain(d: Deployment)
    ensures DeploymentName(d) == Join(DeployerNames(d) + InitialParts(DeploymentArch(d), InitialDockerImage(d)), '_')
  {
    var tail := InitialParts(DeploymentArch(d), InitialDockerImage(d));
    match d
    case Initial(x, a, image) =>
      var parts := [x.name] + tail;
      assert parts[1..] == tail;
      if image.Some? {
        assert tail[1..] == [ReplaceChar(image.value, ':', '_')];
      } else {
        assert tail == [ArchValue(a)];
      }
    case Following(x, p) =>
      NameEncodesChain(p);
      var parts := [x.name] + DeployerNames(p) + tail;
      assert parts[1..] == DeployerNames(p) + tail;
  }

  /** The name of a following deployment ends with the previous one's name and is longer. */
  lemma FollowingNameExtends(x: Deployer, p: Deployment)
    ensures EndsWith(DeploymentName(Following(x, p)), DeploymentName(p))
    ensures |DeploymentName(Following(x, p))| > |DeploymentName(p)|
  {
    var n := DeploymentName(Following(x, p));
    assert n[|n| - |DeploymentName(p)|..] == DeploymentName(p);
  }

  // ----- Checksums and image names -----

  /** The message Python gives when `get_used_files_checksum` is passed `additional_seed`. */
  const ChecksumTypeError := TypeError("get_used_files_checksum() got an unexpected keyword argument 'additional_seed'")

  /** `checksum` as written: the deployer's checksum for an initial deployment. A following
      deployment passes `additional_seed` to a method that takes no such argument. */
  function AsWrittenChecksum(d: Deployment, m: Machine): Result<string>
  {
    match d
    case Initial(x, _, _) => Ok(x.Checksum(m))
    case Following(_, _) => Err(ChecksumTypeError)
  }

  /** The checksum a following deployment is meant to have: its deployer's files seeded with the
      previous deployment's image name, hashed last. */
  function SeededChecksum(d: Deployment, m: Machine): string
  {
    match d
    case Initial(x, _, _) => x.Checksum(m)
    case Following(x, p) =>
      Digest(m.h, DeployerChunks(x.UsedFiles(m.tree), m.root, m.tree) + [DeploymentName(p) + "_" + SeededChecksum(p, m)])
  }

  datatype ChecksumMode = AsWritten | Seeded

  function DeploymentChecksum(mode: ChecksumMode, d: Deployment, m: Machine): Result<string>
  {
    if mode == AsWritten then AsWrittenChecksum(d, m) else Ok(SeededChecksum(d, m))
  }

  /** `image_name`, which is also `cache_name`: `<name>_<checksum>`. */
  function DeploymentImageName(mode: ChecksumMode, d: Deployment, m: Machine): (r: Result<string>)
    ensures r.Ok? <==> DeploymentChecksum(mode, d, m).Ok?
    ensures r.Ok? ==> StartsWith(r.value, DeploymentName(d) + "_")
  {
    match DeploymentChecksum(mode, d, m)
    case Err(e) => Err(e)
    case Ok(c) =>
      var r := DeploymentName(d) + "_" + c;
      assert r[..|DeploymentName(d) + "_"|] == DeploymentName(d) + "_";
      Ok(r)
  }

  /** `base_docker_image` of a deployment in docker: the initial image, or the previous deployment's
      image name. */
  function BaseDockerImage(mode: ChecksumMode, d: Deployment, m: Machine): Result<string>
    requires InDocker(d)
  {
    match d
    case Initial(_, _, image) => Ok(image.value)
    case Following(_, p) => DeploymentImageName(mode, p, m)
  }

  /** As written, every following deployment fails to name its image, and so fails to give its
      successor a base image. */
  lemma AsWrittenFollowingHasNoImage(x: Deployer, p: Deployment, y: Deployer, m: Machine)
    ensures DeploymentImageName(AsWritten, Following(x, p), m) == Err(ChecksumTypeError)
    ensures InDocker(p) ==> BaseDockerImage(AsWritten, Following(y, Following(x, p)), m) == Err(ChecksumTypeError)
  {
  }

  /** With the seeded checksum, two checkouts that agree on a following deployment's own files but
      give its previous deployment different checksums give it different checksums, if the hash
      does not collide there. */
  lemma SeededChecksumSeesPrevious(x: Deployer, p: Deployment, m1: Machine, m2: Machine)
    requires m1.root == m2.root && m1.h == m2.h
    requires SameLayout(x.usedFiles, m1.tree, m2.tree) && SameFiles(x.UsedFiles(m1.tree), m1.tree, m2.tree)
    requires SeededChecksum(p, m1) != SeededChecksum(p, m2)
    requires var own := DeployerChunks(x.UsedFiles(m1.tree), m1.root, m1.tree);
      CollisionFree(m1.h, Flatten(own + [DeploymentName(p) + "_" + SeededChecksum(p, m1)]),
                          Flatten(own + [DeploymentName(p) + "_" + SeededChecksum(p, m2)]))
    ensures SeededChecksum(Following(x, p), m1) != SeededChecksum(Following(x, p), m2)
  {
    DeployerChecksumSameInputs(x.script, x.usedFiles, m1.root, m1.tree, m2.tree, m1.h);
    var own := DeployerChunks(x.UsedFiles(m1.tree), m1.root, m1.tree);
    assert DeployerChunks(x.UsedFiles(m2.tree), m2.root, m2.tree) == own by {
      DeployerChunksSameFiles(x.UsedFiles(m1.tree), m1.root, m1.tree, m2.tree);
    }
    var n := DeploymentName(p) + "_";
    assert n + SeededChecksum(p, m1) != n + SeededChecksum(p, m2) by {
      var a, b := n + SeededChecksum(p, m1), n + SeededChecksum(p, m2);
      assert a[|n|..] == SeededChecksum(p, m1) && b[|n|..] == SeededChecksum(p, m2);
    }
    assert DeploymentName(p) + "_" + SeededChecksum(p, m1) == n + SeededChecksum(p, m1);
    assert DeploymentName(p) + "_" + SeededChecksum(p, m2) == n + SeededChecksum(p, m2);
    LastChunkChangesDigest(m1.h, own, n + SeededChecksum(p, m1), n + SeededChecksum(p, m2));
  }

  /** With the seeded checksum, a deployment's image name is the same for two checkouts on which its
      checksum is the same: the name does not depend on the checkout. */
  lemma SeededImageNameDeterminedByChecksum(d: Deployment, m1: Machine, m2: Machine)
    ensures DeploymentImageName(Seeded, d, m1) == DeploymentImageName(Seeded, d, m2)
        <==> SeededChecksum(d, m1) == SeededChecksum(d, m2)
  {
    var n := DeploymentName(d) + "_";
    var a, b := n + SeededChecksum(d, m1), n + SeededChecksum(d, m2);
    assert a[|n|..] == SeededChecksum(d, m1) && b[|n|..] == SeededChecksum(d, m2);
  }

  // ----- Deploying -----

  /** Why a deployment stopped: its script failed, or the code raised. */
  datatype Stop = ScriptFailed | Raised(error: Error)

  datatype Deployed = Deployed(state: HostState, stop: Option<Stop>)

  /** `cache_dir/cache_name` when a cache directory is given. */
  function DeploymentCacheDir(mode: ChecksumMode, d: Deployment, cacheDir: Option<Path>, m: Machine): (r: Result<Option<Path>>)
    ensures cacheDir.None? ==> r == Ok(None)
    ensures cacheDir.Some? && DeploymentImageName(mode, d, m).Ok? ==> r == Ok(Some(JoinPath(cacheDir.value, DeploymentImageName(mode, d, m).value)))
    ensures cacheDir.Some? && DeploymentImageName(mode, d, m).Err? ==> r == Err(DeploymentImageName(mode, d, m).error)
  {
    if cacheDir.None? then Ok(None)
    else match DeploymentImageName(mode, d, m)
      case Err(e) => Err(e)
      case Ok(n) => Ok(Some(JoinPath(cacheDir.value, n)))
  }

  /** `Deployment.deploy` for one deployment: `run_in_docker` with the base image and image name when
      the chain is in docker, or `run` on the host otherwise, both given the cache directory. */
  function DeployOwn(st: HostState, mode: ChecksumMode, d: Deployment, cacheDir: Option<Path>, m: Machine): Deployed
  {
    var dir := DeploymentCacheDir(mode, d, cacheDir, m);
    if dir.Err? then Deployed(st, Some(Raised(dir.error)))
    else if InDocker(d) then DeployOwnInDocker(st, mode, d, dir.value, m)
    else
      var ok := d.deployer.script !in m.failing;
      Deployed(Logged(st, [Exec(ScriptCommand(d.deployer.script, dir.value, m), map[])]), if ok then None else Some(ScriptFailed))
  }

  function DeployOwnInDocker(st: HostState, mode: ChecksumMode, d: Deployment, dir: Option<Path>, m: Machine): Deployed
    requires InDocker(d)
  {
    var base := BaseDockerImage(mode, d, m);
    var image := DeploymentImageName(mode, d, m);
    if base.Err? then Deployed(st, Some(Raised(base.error)))
    else if image.Err? then Deployed(st, Some(Raised(image.error)))
    else
      var o := d.deployer.RunInDockerSpec(st, base.value, image.value, DeploymentArch(d), dir, m);
      Deployed(o.state, if o.ok then None else Some(ScriptFailed))
  }

  /** `FollowingDeployment.deploy`: the previous deployment first, with the same cache directory,
      unless `only_this`; then this one. */
  function DeploySpec(st: HostState, mode: ChecksumMode, d: Deployment, cacheDir: Option<Path>, onlyThis: bool, m: Machine): Deployed
  {
    match d
    case Initial(_, _, _) => DeployOwn(st, mode, d, cacheDir, m)
    case Following(_, p) =>
      if onlyThis then DeployOwn(st, mode, d, cacheDir, m)
      else
        var r := DeploySpec(st, mode, p, cacheDir, false, m);
        if r.stop.Some? then r else DeployOwn(r.state, mode, d, cacheDir, m)
  }

  /** Deploying only adds to the host's command log. */
  lemma {:induction false} DeployOwnExtendsLog(st: HostState, mode: ChecksumMode, d: Deployment, cacheDir: Option<Path>, m: Machine)
    ensures st.log <= DeployOwn(st, mode, d, cacheDir, m).state.log
  {
    var dir := DeploymentCacheDir(mode, d, cacheDir, m);
    if dir.Ok? && InDocker(d) && BaseDockerImage(mode, d, m).Ok? && DeploymentImageName(mode, d, m).Ok? {
      var x := d.deployer;
      var a := DeploymentArch(d);
      var tag := DeploymentImageName(mode, d, m).value;
      BuildOrReuseExtendsLog(st, tag, dir.value, ToolsDeployers.ImageName(x.name, x.Checksum(m), a),
        x.ContainerRun(BaseDockerImage(mode, d, m).value, a, m), x.script in m.failing);
    }
  }

  lemma {:induction false} DeployExtendsLog(st: HostState, mode: ChecksumMode, d: Deployment, cacheDir: Option<Path>, onlyThis: bool, m: Machine)
    ensures st.log <= DeploySpec(st, mode, d, cacheDir, onlyThis, m).state.log
  {
    match d
    case Initial(_, _, _) => DeployOwnExtendsLog(st, mode, d, cacheDir, m);
    case Following(_, p) =>
      if onlyThis {
        DeployOwnExtendsLog(st, mode, d, cacheDir, m);
      } else {
        DeployExtendsLog(st, mode, p, cacheDir, false, m);
        var r := DeploySpec(st, mode, p, cacheDir, false, m);
        DeployOwnExtendsLog(r.state, mode, d, cacheDir, m);
      }
  }

  /** Unless `only_this`, the previous deployment runs first: everything it logs comes before what the
      following deployment logs, and when it stops, the following deployment does nothing. */
  lemma PreviousDeployedFirst(st: HostState, mode: ChecksumMode, x: Deployer, p: Deployment, cacheDir: Option<Path>, m: Machine)
    ensures var prev := DeploySpec(st, mode, p, cacheDir, false, m);
      var r := DeploySpec(st, mode, Following(x, p), cacheDir, false, m);
      && prev.state.log <= r.state.log
      && (prev.stop.Some? ==> r == prev)
      && (prev.stop.None? ==> r == DeployOwn(prev.state, mode, Following(x, p), cacheDir, m))
  {
    var prev := DeploySpec(st, mode, p, cacheDir, false, m);
    DeployOwnExtendsLog(prev.state, mode, Following(x, p), cacheDir, m);
  }

  /** As written, a following deployment given a cache directory, or in docker, raises the checksum's
      TypeError once the previous deployment succeeds, after running nothing of its own. */
  lemma AsWrittenFollowingDeployRaises(st: HostState, x: Deployer, p: Deployment, cacheDir: Option<Path>, m: Machine)
    requires cacheDir.Some? || InDocker(p)
    ensures var prev := DeploySpec(st, AsWritten, p, cacheDir, false, m);
      prev.stop.None? ==> DeploySpec(st, AsWritten, Following(x, p), cacheDir, false, m) == Deployed(prev.state, Some(Raised(ChecksumTypeError)))
  {
  }

  /** A deployment whose image tag is already present only queries it, whatever its cache directory. */
  lemma DeployOwnReusesImage(st: HostState, d: Deployment, cacheDir: Option<Path>, m: Machine)
    requires InDocker(d) && DeploymentImageName(Seeded, d, m).value in st.images
    ensures DeployOwn(st, Seeded, d, cacheDir, m) == Deployed(Logged(st, [ImageQuery(DeploymentImageName(Seeded, d, m).value)]), None)
  {
    var tag := DeploymentImageName(Seeded, d, m).value;
    var dir := if cacheDir.None? then None else Some(JoinPath(cacheDir.value, tag));
    ToolsDeployers.RunInDockerReusesImage(d.deployer, st, BaseDockerImage(Seeded, d, m).value, tag, DeploymentArch(d), dir, m);
  }

  // ----- The deploy methods -----

  /** Every deployer of the chain. */
  ghost function DeployersOf(d: Deployment): set<Deployer>
  {
    match d
    case Initial(x, _, _) => {x}
    case Following(x, p) => {x} + DeployersOf(p)
  }

  lemma {:induction false} DeployersAllocated(d: Deployment)
    ensures forall x :: x in DeployersOf(d) ==> allocated(x)
  {
    match d
    case Initial(_, _, _) =>
    case Following(_, p) => DeployersAllocated(p);
  }

  /** Every deployer of the chain has a memoised checksum that is its checksum on the checkout. */
  ghost predicate ChainMemoValid(d: Deployment, m: Machine)
    reads DeployersOf(d)
  {
    forall x :: x in DeployersOf(d) ==> x.MemoValid(m)
  }

  /** `image_name` (and `cache_name`) as the code computes it. A following deployment evaluates the
      previous image name for its `additional_seed` argument before the call raises. */
  method GetImageName(d: Deployment, m: Machine) returns (r: Result<string>)
    requires ChainMemoValid(d, m)
    modifies DeployersOf(d)
    ensures r == DeploymentImageName(AsWritten, d, m)
    ensures ChainMemoValid(d, m)
    decreases d
  {
    match d
    case Initial(x, _, _) =>
      var c := x.GetUsedFilesChecksum(m);
      r := Ok(DeploymentName(d) + "_" + c);
    case Following(_, p) =>
      var _ := GetImageName(p, m);
      r := Err(ChecksumTypeError);
  }

  method Deploy(d: Deployment, cacheDir: Option<Path>, onlyThis: bool, m: Machine, host: Host) returns (stop: Option<Stop>)
    requires ChainMemoValid(d, m)
    modifies DeployersOf(d), host
    ensures var r := DeploySpec(old(host.State()), AsWritten, d, cacheDir, onlyThis, m);
      host.State() == r.state && stop == r.stop
    ensures ChainMemoValid(d, m)
    decreases d
  {
    if d.Following? && !onlyThis {
      stop := Deploy(d.previous, cacheDir, false, m, host);
      if stop.Some? {
        return;
      }
    }
    stop := DeployOne(d, cacheDir, m, host);
  }

  /** `Deployment.deploy` of one deployment. */
  method DeployOne(d: Deployment, cacheDir: Option<Path>, m: Machine, host: Host) returns (stop: Option<Stop>)
    requires ChainMemoValid(d, m)
    modifies DeployersOf(d), host
    ensures var r := DeployOwn(old(host.State()), AsWritten, d, cacheDir, m);
      host.State() == r.state && stop == r.stop
    ensures ChainMemoValid(d, m)
  {
    var dir := GetCacheDir(d, cacheDir, m);
    if dir.Err? {
      return Some(Raised(dir.error));
    }
    if InDocker(d) {
      stop := DeployOneInDocker(d, dir.value, m, host);
    } else {
      DeployersAllocated(d);
      var ok := d.deployer.Run(dir.value, m, host);
      stop := if ok then None else Some(ScriptFailed);
    }
  }

  method GetCacheDir(d: Deployment, cacheDir: Option<Path>, m: Machine) returns (r: Result<Option<Path>>)
    requires ChainMemoValid(d, m)
    modifies DeployersOf(d)
    ensures r == DeploymentCacheDir(AsWritten, d, cacheDir, m)
    ensures ChainMemoValid(d, m)
  {
    if cacheDir.None? {
      return Ok(None);
    }
    var cacheName := GetImageName(d, m);
    if cacheName.Err? {
      return Err(cacheName.error);
    }
    r := Ok(Some(JoinPath(cacheDir.value, cacheName.value)));
  }

  /** `base_docker_image` as the code computes it. */
  method GetBaseImage(d: Deployment, m: Machine) returns (r: Result<string>)
    requires InDocker(d) && ChainMemoValid(d, m)
    modifies DeployersOf(d)
    ensures r == BaseDockerImage(AsWritten, d, m)
    ensures ChainMemoValid(d, m)
  {
    match d
    case Initial(_, _, image) =>
      r := Ok(image.value);
    case Following(x, p) =>
      r := GetImageName(p, m);
      assert x in DeployersOf(p) || unchanged(x);
  }

  method DeployOneInDocker(d: Deployment, dir: Option<Path>, m: Machine, host: Host) returns (stop: Option<Stop>)
    requires InDocker(d) && ChainMemoValid(d, m)
    modifies DeployersOf(d), host
    ensures var r := DeployOwnInDocker(old(host.State()), AsWritten, d, dir, m);
      host.State() == r.state && stop == r.stop
    ensures ChainMemoValid(d, m)
  {
    var base := GetBaseImage(d, m);
    if base.Err? {
      return Some(Raised(base.error));
    }
    var image := GetImageName(d, m);
    if image.Err? {
      return Some(Raised(image.error));
    }
    var ok := d.deployer.RunInDocker(base.value, image.value, DeploymentArch(d), dir, m, host);
    stop := if ok then None else Some(ScriptFailed);
  }

  // ----- The deployment registry -----

  /** `DEPLOYMENTS`: deployments by name. */
  type Registry = map<string, Deployment>

  /** Every entry is filed under its own name. */
  ghost predicate Keyed(reg: Registry)
  {
    forall k :: k in reg ==> DeploymentName(reg[k]) == k
  }

  /** `big` holds every entry of `small`, unchanged. */
  ghost predicate Extends(big: Registry, small: Registry)
  {
    forall k :: k in small ==> k in big && big[k] == small[k]
  }

  datatype Created = Created(registry: Registry, deployment: Deployment)

  /** An entry already filed under the deployment's name is used instead of it; otherwise the
      deployment is filed under its name. */
  function Intern(reg: Registry, d: Deployment): (r: Created)
    ensures DeploymentName(d) in r.registry && r.registry[DeploymentName(d)] == r.deployment
    ensures Extends(r.registry, reg) && r.registry.Keys == reg.Keys + {DeploymentName(d)}
    ensures Keyed(reg) ==> Keyed(r.registry) && DeploymentName(r.deployment) == DeploymentName(d)
  {
    var n := DeploymentName(d);
    if n in reg then Created(reg, reg[n]) else Created(reg[n := d], d)
  }

  /** The loop of `_create_new_deployment`: each deployer follows the deployment before it. */
  function ChainFrom(reg: Registry, prev: Deployment, ds: seq<Deployer>): Created
    decreases |ds|
  {
    if ds == [] then Created(reg, prev)
    else
      var c := Intern(reg, Following(ds[0], prev));
      ChainFrom(c.registry, c.deployment, ds[1..])
  }

  /** `_create_new_deployment`: the first deployer starts an initial deployment, every other one
      follows; the registered entry of the same name, if any, stands in for each new deployment,
      and the last deployment is the result. No deployer at all fails at `pop(0)`. */
  function NewDeployment(reg: Registry, arch: Architecture, ds: seq<Deployer>, image: Option<string>): (r: Result<Created>)
    ensures r.Err? <==> ds == []
    ensures r.Err? ==> r.error == IndexError("pop from empty list")
  {
    if ds == [] then Err(IndexError("pop from empty list"))
    else
      var c := Intern(reg, Initial(ds[0], arch, image));
      Ok(ChainFrom(c.registry, c.deployment, ds[1..]))
  }

  /** The name a chain of deployers gets: each deployer's name put in front of the name so far. */
  function FollowNames(n: string, ds: seq<Deployer>): string
    decreases |ds|
  {
    if ds == [] then n else FollowNames(ds[0].name + "_" + n, ds[1..])
  }

  lemma {:induction false} ChainFromRegisters(reg: Registry, prev: Deployment, ds: seq<Deployer>)
    requires Keyed(reg) && DeploymentName(prev) in reg && reg[DeploymentName(prev)] == prev
    ensures var r := ChainFrom(reg, prev, ds);
      && Keyed(r.registry) && Extends(r.registry, reg)
      && DeploymentName(r.deployment) == FollowNames(DeploymentName(prev), ds)
      && DeploymentName(r.deployment) in r.registry && r.registry[DeploymentName(r.deployment)] == r.deployment
    decreases |ds|
  {
    if ds != [] {
      var c := Intern(reg, Following(ds[0], prev));
      ChainFromRegisters(c.registry, c.deployment, ds[1..]);
    }
  }

  /** Starting from a registry filed by name, the result is filed under its own name, which is the
      name of the whole chain of deployers; the registry keeps every earlier entry. */
  lemma NewDeploymentRegisters(reg: Registry, arch: Architecture, ds: seq<Deployer>, image: Option<string>)
    requires Keyed(reg) && ds != []
    ensures var r := NewDeployment(reg, arch, ds, image).value;
      && Keyed(r.registry) && Extends(r.registry, reg)
      && DeploymentName(r.deployment) == FollowNames(DeploymentName(Initial(ds[0], arch, image)), ds[1..])
      && DeploymentName(r.deployment) in r.registry && r.registry[DeploymentName(r.deployment)] == r.deployment
  {
    var c := Intern(reg, Initial(ds[0], arch, image));
    ChainFromRegisters(c.registry, c.deployment, ds[1..]);
  }

  lemma ExtendsTransitive(a: Registry, b: Registry, c: Registry)
    requires Extends(a, b) && Extends(b, c)
    ensures Extends(a, c)
  {
  }

  lemma {:induction false} ChainFromExtends(reg: Registry, prev: Deployment, ds: seq<Deployer>)
    ensures Extends(ChainFrom(reg, prev, ds).registry, reg)
    decreases |ds|
  {
    if ds != [] {
      var c := Intern(reg, Following(ds[0], prev));
      ChainFromExtends(c.registry, c.deployment, ds[1..]);
      ExtendsTransitive(ChainFrom(reg, prev, ds).registry, c.registry, reg);
    }
  }

  /** Running the loop again over a registry that holds everything the first run filed changes
      nothing and gives the same deployment. */
  lemma {:induction false} ChainFromRerun(reg: Registry, prev: Deployment, ds: seq<Deployer>, big: Registry)
    requires Extends(big, ChainFrom(reg, prev, ds).registry)
    ensures ChainFrom(big, prev, ds) == Created(big, ChainFrom(reg, prev, ds).deployment)
    decreases |ds|
  {
    if ds != [] {
      var c := Intern(reg, Following(ds[0], prev));
      ChainFromExtends(c.registry, c.deployment, ds[1..]);
      ExtendsTransitive(big, ChainFrom(c.registry, c.deployment, ds[1..]).registry, c.registry);
      assert Intern(big, Following(ds[0], prev)) == Created(big, c.deployment);
      ChainFromRerun(c.registry, c.deployment, ds[1..], big);
    }
  }

  /** Creating the same deployment twice gives the same deployment and leaves the registry as the
      first call left it. */
  lemma NewDeploymentIdempotent(reg: Registry, arch: Architecture, ds: seq<Deployer>, image: Option<string>)
    requires ds != []
    ensures var r := NewDeployment(reg, arch, ds, image).value;
      NewDeployment(r.registry, arch, ds, image) == Ok(r)
  {
    var c := Intern(reg, Initial(ds[0], arch, image));
    var r := ChainFrom(c.registry, c.deployment, ds[1..]);
    ChainFromExtends(c.registry, c.deployment, ds[1..]);
    assert Intern(r.registry, Initial(ds[0], arch, image)) == Created(r.registry, c.deployment);
    ChainFromRerun(c.registry, c.deployment, ds[1..], r.registry);
  }

  /** The chain of deployments the deployers make when nothing is reused. */
  function Chain(prev: Deployment, ds: seq<Deployer>): Deployment
    decreases |ds|
  {
    if ds == [] then prev else Chain(Following(ds[0], prev), ds[1..])
  }

  lemma {:induction false} ChainFromFresh(reg: Registry, prev: Deployment, ds: seq<Deployer>)
    requires forall k :: k in reg ==> |k| <= |DeploymentName(prev)|
    ensures ChainFrom(reg, prev, ds).deployment == Chain(prev, ds)
    decreases |ds|
  {
    if ds != [] {
      var f := Following(ds[0], prev);
      FollowingNameExtends(ds[0], prev);
      var c := Intern(reg, f);
      assert c == Created(reg[DeploymentName(f) := f], f);
      ChainFromFresh(c.registry, f, ds[1..]);
    }
  }

  lemma {:induction false} ChainShape(prev: Deployment, ds: seq<Deployer>)
    ensures DeploymentArch(Chain(prev, ds)) == DeploymentArch(prev)
    ensures InitialDockerImage(Chain(prev, ds)) == InitialDockerImage(prev)
    ensures |DeployerNames(Chain(prev, ds))| == |DeployerNames(prev)| + |ds|
    decreases |ds|
  {
    if ds != [] {
      ChainShape(Following(ds[0], prev), ds[1..]);
    }
  }

  /** With an empty registry nothing is reused: the result is the chain of all the deployers, on
      the given architecture and initial image, one deployment per deployer. */
  lemma NewDeploymentFresh(arch: Architecture, ds: seq<Deployer>, image: Option<string>)
    requires ds != []
    ensures var d := NewDeployment(map[], arch, ds, image).value.deployment;
      && d == Chain(Initial(ds[0], arch, image), ds[1..])
      && DeploymentArch(d) == arch && InitialDockerImage(d) == image && |DeployerNames(d)| == |ds|
  {
    var i := Initial(ds[0], arch, image);
    ChainFromFresh(map[DeploymentName(i) := i], i, ds[1..]);
    ChainShape(i, ds[1..]);
  }

  // ----- Build and test specs -----

  /** `PackageBuildSpec`; the builder class is given by name. */
  datatype BuildSpec = BuildSpec(packageType: PackageType, builder: string, deployment: Deployment, filenameGlob: string)

  /** `PackageBuildSpec.name`: the package type value and the architecture value. An architecture
      enum member is always truthy, so the architecture is always appended. */
  function BuildSpecName(s: BuildSpec): string
  {
    PackageTypeValue(s.packageType) + "_" + ArchValue(DeploymentArch(s.deployment))
  }

  lemma PackageTypeHasNoUnderscore(t: PackageType)
    ensures '_' !in PackageTypeValue(t)
  {
  }

  /** Two build specs share a name exactly when they share package type and architecture, so
      `PACKAGE_BUILD_SPECS` holds one spec per pair. */
  lemma BuildSpecNamesDistinct(s1: BuildSpec, s2: BuildSpec)
    ensures BuildSpecName(s1) == BuildSpecName(s2)
        <==> s1.packageType == s2.packageType && DeploymentArch(s1.deployment) == DeploymentArch(s2.deployment)
  {
    if BuildSpecName(s1) == BuildSpecName(s2) {
      var t1, t2 := PackageTypeValue(s1.packageType), PackageTypeValue(s2.packageType);
      var a1, a2 := ArchValue(DeploymentArch(s1.deployment)), ArchValue(DeploymentArch(s2.deployment));
      PackageTypeHasNoUnderscore(s1.packageType);
      PackageTypeHasNoUnderscore(s2.packageType);
      FirstSeparatorUnique(t1, a1, t2, a2, '_');
      PackageTypeValuesDistinct(s1.packageType, s2.packageType);
      ArchitectureOfValue(DeploymentArch(s1.deployment));
      ArchitectureOfValue(DeploymentArch(s2.deployment));
    }
  }

  /** The spec `_add_package_build_specs` makes for one architecture: the filename glob is the
      format with the builder's name for that architecture, or nothing, in place of `{arch}`. */
  function NewBuildSpec(t: PackageType, builder: string, archNames: map<Architecture, string>, format: string,
                        deployment: Deployment): BuildSpec
  {
    BuildSpec(t, builder, deployment, PackageBuilders.FilenameGlob(format, archNames, DeploymentArch(deployment)))
  }

  lemma NewBuildSpecGlob(t: PackageType, builder: string, archNames: map<Architecture, string>,
                         prefix: string, suffix: string, deployment: Deployment)
    requires '{' !in prefix && '{' !in suffix
    ensures var a := DeploymentArch(deployment);
      NewBuildSpec(t, builder, archNames, prefix + "{arch}" + suffix, deployment).filenameGlob
        == prefix + (if a in archNames then archNames[a] else "") + suffix
  {
    var a := DeploymentArch(deployment);
    PackageBuilders.FormatOneField(prefix, suffix, if a in archNames then archNames[a] else "");
  }

  datatype TargetSystem = UBUNTU_1404 | UBUNTU_2004 | AMAZONLINUX_2 | WINDOWS_2019

  function TargetValue(t: TargetSystem): (r: string)
    ensures '_' !in r
  {
    match t
    case UBUNTU_1404 => "ubuntu-1404"
    case UBUNTU_2004 => "ubuntu-2004"
    case AMAZONLINUX_2 => "amazonlinux-2"
    case WINDOWS_2019 => "windows-2019"
  }

  datatype OSFamily = WINDOWS | LINUX

  /** The machine a package test runs on: a Docker image, an EC2 instance, or a value of any
      other type. */
  datatype RemoteSpec =
    | DockerImageInfo(imageName: string)
    | Ec2BasedTestSpec(ec2ImageName: string, imageId: string, sizeId: string, sshUsername: string, osFamily: OSFamily)
    | OtherRemote

  /** `PackageTestSpec`; no remote spec means a local test. */
  datatype TestSpec = TestSpec(target: TargetSystem, build: BuildSpec, deployment: Deployment, remote: Option<RemoteSpec>)

  /** The suffix the remote spec adds to a test spec's name. */
  function RemoteSuffix(remote: Option<RemoteSpec>): Result<string>
  {
    match remote
    case None => Ok("")
    case Some(DockerImageInfo(_)) => Ok("_docker")
    case Some(Ec2BasedTestSpec(_, _, _, _, _)) => Ok("_ec2")
    case Some(OtherRemote) => Err(ValueError("Unknown remote machine spec."))
  }

  /** `PackageTestSpec.name`: `<package type>_<target>_<arch>`, then `_docker` or `_ec2` for a
      remote spec; any other remote spec raises `ValueError`. */
  function TestSpecName(s: TestSpec): (r: Result<string>)
    ensures r.Err? <==> s.remote == Some(OtherRemote)
  {
    match RemoteSuffix(s.remote)
    case Err(e) => Err(e)
    case Ok(suffix) =>
      Ok(PackageTypeValue(s.build.packageType) + "_" + TargetValue(s.target) + "_" + ArchValue(DeploymentArch(s.build.deployment)) + suffix)
  }

  /** Names cut at their underscores: with package type and target free of underscores, and the
      name ending in an architecture value and a remote suffix, every part is determined. Which
      suffix a name has is read off its last character, which no architecture value ends in. */
  lemma NamePartsUnique(t1: string, g1: string, a1: string, x1: string, t2: string, g2: string, a2: string, x2: string)
    requires '_' !in t1 && '_' !in t2 && '_' !in g1 && '_' !in g2
    requires a1 in {"x86_64", "arm64"} && a2 in {"x86_64", "arm64"}
    requires x1 in {"", "_docker", "_ec2"} && x2 in {"", "_docker", "_ec2"}
    requires t1 + "_" + g1 + "_" + a1 + x1 == t2 + "_" + g2 + "_" + a2 + x2
    ensures t1 == t2 && g1 == g2 && a1 == a2 && x1 == x2
  {
    Regroup(t1, g1, a1, x1);
    Regroup(t2, g2, a2, x2);
    FirstSeparatorUnique(t1, g1 + ['_'] + (a1 + x1), t2, g2 + ['_'] + (a2 + x2), '_');
    FirstSeparatorUnique(g1, a1 + x1, g2, a2 + x2, '_');
    LastPartsUnique(a1, x1, a2, x2);
  }

  lemma Regroup(t: string, g: string, a: string, x: string)
    ensures t + "_" + g + "_" + a + x == t + ['_'] + (g + ['_'] + (a + x))
  {
  }

  lemma LastPartsUnique(a1: string, x1: string, a2: string, x2: string)
    requires a1 in {"x86_64", "arm64"} && a2 in {"x86_64", "arm64"}
    requires x1 in {"", "_docker", "_ec2"} && x2 in {"", "_docker", "_ec2"}
    requires a1 + x1 == a2 + x2
    ensures a1 == a2 && x1 == x2
  {
    var s := a1 + x1;
    assert s[|s| - 1] == (if x1 == "" then '4' else x1[|x1| - 1]);
    assert s[|s| - 1] == (if x2 == "" then '4' else x2[|x2| - 1]);
    assert s[..|a1|] == a1 && s[..|a2|] == a2;
  }

  /** Two test specs that are named share package type, target system, architecture and kind of
      remote machine, so `TEST_SPECS` overwrites an entry only with a spec of the same four. */
  lemma TestSpecNamesDetermine(s1: TestSpec, s2: TestSpec)
    requires TestSpecName(s1).Ok? && TestSpecName(s1) == TestSpecName(s2)
    ensures s1.build.packageType == s2.build.packageType && s1.target == s2.target
    ensures DeploymentArch(s1.build.deployment) == DeploymentArch(s2.build.deployment)
    ensures RemoteSuffix(s1.remote) == RemoteSuffix(s2.remote)
  {
    PackageTypeHasNoUnderscore(s1.build.packageType);
    PackageTypeHasNoUnderscore(s2.build.packageType);
    NamePartsUnique(PackageTypeValue(s1.build.packageType), TargetValue(s1.target),
      ArchValue(DeploymentArch(s1.build.deployment)), RemoteSuffix(s1.remote).value,
      PackageTypeValue(s2.build.packageType), TargetValue(s2.target),
      ArchValue(DeploymentArch(s2.build.deployment)), RemoteSuffix(s2.remote).value);
    PackageTypeValuesDistinct(s1.build.packageType, s2.build.packageType);
    ArchitectureOfValue(DeploymentArch(s1.build.deployment));
    ArchitectureOfValue(DeploymentArch(s2.build.deployment));
  }

  // ----- create_test_specs -----

  /** `PACKAGE_BUILD_TO_TEST_SPECS` is a `defaultdict(list)`: a missing key reads as the empty list. */
  function TestsOf<T>(m: map<string, seq<T>>, k: string): seq<T>
  {
    if k in m then m[k] else []
  }

  /** `remote_machine_arch_specs.get(arch)`, where a missing and an empty list are both falsy. */
  function RemotesFor(remoteMap: map<Architecture, seq<RemoteSpec>>, a: Architecture): seq<RemoteSpec>
  {
    if a in remoteMap then remoteMap[a] else []
  }

  /** The three registries `create_test_specs` writes. */
  datatype Tables = Tables(deployments: Registry, testSpecs: map<string, TestSpec>, buildToTests: map<string, seq<TestSpec>>)

  /** The registries after a call, and the exception it raised, if any. */
  datatype Applied = Applied(tables: Tables, error: Option<Error>)

  /** `TEST_SPECS[spec.name] = spec` and the append to the build spec's list. */
  function AddTest(t: Tables, spec: TestSpec, name: string): Tables
  {
    var b := BuildSpecName(spec.build);
    t.(testSpecs := t.testSpecs[name := spec], buildToTests := t.buildToTests[b := TestsOf(t.buildToTests, b) + [spec]])
  }

  /** The loop over the remote machine specs. */
  function AddRemoteTests(t: Tables, target: TargetSystem, build: BuildSpec, deployment: Deployment,
                          remotes: seq<RemoteSpec>): Applied
    decreases |remotes|
  {
    if remotes == [] then Applied(t, None)
    else
      var spec := TestSpec(target, build, deployment, Some(remotes[0]));
      match TestSpecName(spec)
      case Err(e) => Applied(t, Some(e))
      case Ok(n) => AddRemoteTests(AddTest(t, spec, n), target, build, deployment, remotes[1..])
  }

  /** The body of `create_test_specs` for one build spec: a deployment of the additional deployers on
      the build's architecture and initial image, then one test spec per remote machine listed for
      the architecture, or one local test spec when none are. */
  function AddBuildTests(t: Tables, target: TargetSystem, build: BuildSpec,
                         remoteMap: map<Architecture, seq<RemoteSpec>>, ds: seq<Deployer>): Applied
  {
    var a := DeploymentArch(build.deployment);
    match NewDeployment(t.deployments, a, ds, InitialDockerImage(build.deployment))
    case Err(e) => Applied(t, Some(e))
    case Ok(c) =>
      var t1 := t.(deployments := c.registry);
      var remotes := RemotesFor(remoteMap, a);
      if remotes != [] then AddRemoteTests(t1, target, build, c.deployment, remotes)
      else
        var spec := TestSpec(target, build, c.deployment, None);
        Applied(AddTest(t1, spec, TestSpecName(spec).value), None)
  }

  /** `create_test_specs`: the build specs in order, stopping at the first exception. */
  function CreateTests(t: Tables, target: TargetSystem, builds: seq<BuildSpec>,
                       remoteMap: map<Architecture, seq<RemoteSpec>>, ds: seq<Deployer>): Applied
    decreases |builds|
  {
    if builds == [] then Applied(t, None)
    else
      var a := AddBuildTests(t, target, builds[0], remoteMap, ds);
      if a.error.Some? then a else CreateTests(a.tables, target, builds[1..], remoteMap, ds)
  }

  /** One test spec per remote machine, in order. */
  function RemoteTests(target: TargetSystem, build: BuildSpec, deployment: Deployment, remotes: seq<RemoteSpec>): (r: seq<TestSpec>)
    ensures |r| == |remotes|
    ensures forall i :: 0 <= i < |remotes| ==> r[i] == TestSpec(target, build, deployment, Some(remotes[i]))
    decreases |remotes|
  {
    if remotes == [] then []
    else [TestSpec(target, build, deployment, Some(remotes[0]))] + RemoteTests(target, build, deployment, remotes[1..])
  }

  /** The test specs made for one build spec. */
  function TestsFor(target: TargetSystem, build: BuildSpec, deployment: Deployment, remotes: seq<RemoteSpec>): seq<TestSpec>
  {
    if remotes == [] then [TestSpec(target, build, deployment, None)] else RemoteTests(target, build, deployment, remotes)
  }

  /** Every spec of a list is registered under its name. */
  ghost predicate AllRegistered(specs: seq<TestSpec>, registered: map<string, TestSpec>)
  {
    forall i :: 0 <= i < |specs| ==> TestSpecName(specs[i]).Ok? && TestSpecName(specs[i]).value in registered
  }

  /** Reading both through the default dict, `after` is `before` with `specs` appended to the list of `b`. */
  ghost predicate AppendedTo<T>(after: map<string, seq<T>>, before: map<string, seq<T>>, b: string, specs: seq<T>)
  {
    forall k :: TestsOf(after, k) == if k == b then TestsOf(before, k) + specs else TestsOf(before, k)
  }

  lemma AppendedStep<T>(before: map<string, seq<T>>, after: map<string, seq<T>>, b: string, spec: T, rest: seq<T>)
    requires AppendedTo(after, before[b := TestsOf(before, b) + [spec]], b, rest)
    ensures AppendedTo(after, before, b, [spec] + rest)
  {
    var mid := before[b := TestsOf(before, b) + [spec]];
    forall k ensures TestsOf(after, k) == if k == b then TestsOf(before, k) + ([spec] + rest) else TestsOf(before, k) {
      assert TestsOf(after, k) == if k == b then TestsOf(mid, k) + rest else TestsOf(mid, k);
      if k == b {
        assert TestsOf(mid, b) == TestsOf(before, b) + [spec];
        assert TestsOf(before, b) + [spec] + rest == TestsOf(before, b) + ([spec] + rest);
      } else {
        assert TestsOf(mid, k) == TestsOf(before, k);
      }
    }
  }

  lemma RegisteredStep(spec: TestSpec, rest: seq<TestSpec>, registered: map<string, TestSpec>)
    requires TestSpecName(spec).Ok? && TestSpecName(spec).value in registered && AllRegistered(rest, registered)
    ensures AllRegistered([spec] + rest, registered)
  {
    forall i | 0 <= i < |[spec] + rest| ensures TestSpecName(([spec] + rest)[i]).Ok? && TestSpecName(([spec] + rest)[i]).value in registered {
      if i > 0 {
        assert ([spec] + rest)[i] == rest[i - 1];
      }
    }
  }

  lemma {:induction false} AddRemoteTestsAppends(t: Tables, target: TargetSystem, build: BuildSpec,
                                                 deployment: Deployment, remotes: seq<RemoteSpec>)
    requires OtherRemote !in remotes
    ensures var a := AddRemoteTests(t, target, build, deployment, remotes);
      && a.error.None? && a.tables.deployments == t.deployments
      && AppendedTo(a.tables.buildToTests, t.buildToTests, BuildSpecName(build), RemoteTests(target, build, deployment, remotes))
      && t.testSpecs.Keys <= a.tables.testSpecs.Keys
      && AllRegistered(RemoteTests(target, build, deployment, remotes), a.tables.testSpecs)
    decreases |remotes|
  {
    if remotes != [] {
      var spec := TestSpec(target, build, deployment, Some(remotes[0]));
      var n := TestSpecName(spec).value;
      var t1 := AddTest(t, spec, n);
      assert OtherRemote !in remotes[1..];
      AddRemoteTestsAppends(t1, target, build, deployment, remotes[1..]);
      var rest := RemoteTests(target, build, deployment, remotes[1..]);
      var a := AddRemoteTests(t1, target, build, deployment, remotes[1..]);
      assert AddRemoteTests(t, target, build, deployment, remotes) == a;
      assert RemoteTests(target, build, deployment, remotes) == [spec] + rest;
      AppendedStep(t.buildToTests, a.tables.buildToTests, BuildSpecName(build), spec, rest);
      RegisteredStep(spec, rest, a.tables.testSpecs);
    }
  }

  /** For one build spec, with deployers to deploy and no remote spec of an unknown type: the test
      specs made, one per listed remote machine or one local spec, all on the new deployment, are
      appended to the build spec's list in order and registered under their names; the registry
      of deployments is the one `_create_new_deployment` leaves. */
  lemma AddBuildTestsAppends(t: Tables, target: TargetSystem, build: BuildSpec,
                             remoteMap: map<Architecture, seq<RemoteSpec>>, ds: seq<Deployer>)
    requires ds != [] && OtherRemote !in RemotesFor(remoteMap, DeploymentArch(build.deployment))
    ensures var a := DeploymentArch(build.deployment);
      var c := NewDeployment(t.deployments, a, ds, InitialDockerImage(build.deployment)).value;
      var specs := TestsFor(target, build, c.deployment, RemotesFor(remoteMap, a));
      var r := AddBuildTests(t, target, build, remoteMap, ds);
      && r.error.None? && r.tables.deployments == c.registry
      && AppendedTo(r.tables.buildToTests, t.buildToTests, BuildSpecName(build), specs)
      && t.testSpecs.Keys <= r.tables.testSpecs.Keys && AllRegistered(specs, r.tables.testSpecs)
  {
    var a := DeploymentArch(build.deployment);
    var c := NewDeployment(t.deployments, a, ds, InitialDockerImage(build.deployment)).value;
    var t1 := t.(deployments := c.registry);
    var remotes := RemotesFor(remoteMap, a);
    if remotes != [] {
      AddRemoteTestsAppends(t1, target, build, c.deployment, remotes);
    } else {
      var spec := TestSpec(target, build, c.deployment, None);
      var n := TestSpecName(spec).value;
      var r := AddTest(t1, spec, n);
      AppendedStep(t.buildToTests, r.buildToTests, BuildSpecName(build), spec, []);
      assert [spec] + [] == [spec];
      RegisteredStep(spec, [], r.testSpecs);
    }
  }

  /** The module-level registries `DEPLOYMENTS`, `TEST_SPECS` and `PACKAGE_BUILD_TO_TEST_SPECS`. */
  class Registries {
    var deployments: Registry
    var testSpecs: map<string, TestSpec>
    var buildToTests: map<string, seq<TestSpec>>

    /** Only `_create_new_deployment` writes `DEPLOYMENTS`, always under the entry's own name. */
    ghost predicate Valid()
      reads this
    {
      Keyed(deployments)
    }

    function Snapshot(): Tables
      reads this
    {
      Tables(deployments, testSpecs, buildToTests)
    }

    constructor ()
      ensures deployments == map[] && testSpecs == map[] && buildToTests == map[]
      ensures Valid()
    {
      deployments, testSpecs, buildToTests := map[], map[], map[];
    }

    method CreateNewDeployment(arch: Architecture, ds: seq<Deployer>, image: Option<string>) returns (r: Result<Deployment>)
      requires Valid()
      modifies this
      ensures Valid()
      ensures var c := NewDeployment(old(deployments), arch, ds, image);
        && (c.Err? ==> r == Err(c.error) && deployments == old(deployments))
        && (c.Ok? ==> r == Ok(c.value.deployment) && deployments == c.value.registry)
      ensures testSpecs == old(testSpecs) && buildToTests == old(buildToTests)
    {
      if |ds| == 0 {
        return Err(IndexError("pop from empty list"));
      }
      var initial := Lookup(Initial(ds[0], arch, image));
      ghost var c0 := Created(deployments, initial);
      var previous := initial;
      var all := [initial];
      var i := 1;
      while i < |ds|
        invariant 1 <= i <= |ds| && |all| == i && all[i - 1] == previous
        invariant Valid()
        invariant ChainFrom(deployments, previous, ds[i..]) == ChainFrom(c0.registry, c0.deployment, ds[1..])
        invariant testSpecs == old(testSpecs) && buildToTests == old(buildToTests)
      {
        var deployment := Lookup(Following(ds[i], previous));
        previous := deployment;
        all := all + [deployment];
        ReFile(deployment);
        assert ds[i..][0] == ds[i] && ds[i..][1..] == ds[i + 1..];
        i := i + 1;
      }
      assert ds[i..] == [];
      r := Ok(all[|all| - 1]);
    }

    /** `DEPLOYMENTS.get(name)`: the entry filed under the deployment's name if there is one, and
        otherwise the deployment, which is filed. */
    method Lookup(d: Deployment) returns (e: Deployment)
      requires Valid()
      modifies this
      ensures Valid()
      ensures Created(deployments, e) == Intern(old(deployments), d)
      ensures testSpecs == old(testSpecs) && buildToTests == old(buildToTests)
    {
      var name := DeploymentName(d);
      if name in deployments {
        e := deployments[name];
      } else {
        deployments := deployments[name := d];
        e := d;
      }
    }

    /** `DEPLOYMENTS[deployment.name] = deployment` for a deployment already filed there. */
    method ReFile(d: Deployment)
      requires DeploymentName(d) in deployments && deployments[DeploymentName(d)] == d
      modifies this
      ensures deployments == old(deployments) && testSpecs == old(testSpecs) && buildToTests == old(buildToTests)
    {
      deployments := deployments[DeploymentName(d) := d];
    }

    /** The loop of `create_test_specs` over one build spec's remote machines. */
    method AddRemoteTestSpecs(target: TargetSystem, build: BuildSpec, deployment: Deployment, remotes: seq<RemoteSpec>)
      returns (error: Option<Error>)
      modifies this
      ensures var a := AddRemoteTests(old(Snapshot()), target, build, deployment, remotes);
        Snapshot() == a.tables && error == a.error
      ensures deployments == old(deployments)
    {
      var i := 0;
      while i < |remotes|
        invariant 0 <= i <= |remotes| && deployments == old(deployments)
        invariant AddRemoteTests(Snapshot(), target, build, deployment, remotes[i..])
               == AddRemoteTests(old(Snapshot()), target, build, deployment, remotes)
      {
        var spec := TestSpec(target, build, deployment, Some(remotes[i]));
        assert remotes[i..][0] == remotes[i] && remotes[i..][1..] == remotes[i + 1..];
        var name := TestSpecName(spec);
        if name.Err? {
          return Some(name.error);
        }
        var b := BuildSpecName(build);
        testSpecs := testSpecs[name.value := spec];
        buildToTests := buildToTests[b := TestsOf(buildToTests, b) + [spec]];
        i := i + 1;
      }
      assert remotes[i..] == [];
      error := None;
    }

    method CreateTestSpecs(target: TargetSystem, builds: seq<BuildSpec>, remoteMap: map<Architecture, seq<RemoteSpec>>,
                           ds: seq<Deployer>) returns (error: Option<Error>)
      requires Valid()
      modifies this
      ensures Valid()
      ensures var a := CreateTests(old(Snapshot()), target, builds, remoteMap, ds);
        Snapshot() == a.tables && error == a.error
    {
      var i := 0;
      while i < |builds|
        invariant 0 <= i <= |builds| && Valid()
        invariant CreateTests(Snapshot(), target, builds[i..], remoteMap, ds) == CreateTests(old(Snapshot()), target, builds, remoteMap, ds)
      {
        assert builds[i..][0] == builds[i] && builds[i..][1..] == builds[i + 1..];
        error := AddBuildTestSpecs(target, builds[i], remoteMap, ds);
        if error.Some? {
          return;
        }
        i := i + 1;
      }
      assert builds[i..] == [];
      error := None;
    }

    /** The body of the loop of `create_test_specs`. */
    method AddBuildTestSpecs(target: TargetSystem, build: BuildSpec, remoteMap: map<Architecture, seq<RemoteSpec>>,
                             ds: seq<Deployer>) returns (error: Option<Error>)
      requires Valid()
      modifies this
      ensures Valid()
      ensures var a := AddBuildTests(old(Snapshot()), target, build, remoteMap, ds);
        Snapshot() == a.tables && error == a.error
    {
      var arch := DeploymentArch(build.deployment);
      var deployment := CreateNewDeployment(arch, ds, InitialDockerImage(build.deployment));
      if deployment.Err? {
        return Some(deployment.error);
      }
      var remotes := RemotesFor(remoteMap, arch);
      if remotes != [] {
        error := AddRemoteTestSpecs(target, build, deployment.value, remotes);
      } else {
        var spec := TestSpec(target, build, deployment.value, None);
        var b := BuildSpecName(build);
        testSpecs := testSpecs[TestSpecName(spec).value := spec];
        buildToTests := buildToTests[b := TestsOf(buildToTests, b) + [spec]];
        error := None;
      }
    }
  }
}
