# scalyr-agent-2 build environment caching, modelled in Dafny

The build and test tooling of scalyr-agent-2 prepares build environments with deployment scripts.
Each run is keyed by a content checksum, so an environment already built is reused: an image that
exists locally, an image archive in a cache directory, or a step output directory kept between
runs. Several generations of this logic live side by side, and this project models each on its
own terms:

- `agent_tools/environment_deployments.py`: a linear chain of deployment steps. Each step's name,
  checksum, cache name and image name are built from its predecessor. A `Deployment` runs them in
  order, locally or in Docker (`EnvironmentDeployments`).
- `agent_build/tools/builder.py`: a DAG of builder steps. Each step's id hashes an "overall info"
  record of its tracked files, its settings and the ids of its dependencies and base step. A step
  runs into a temporary directory that is renamed to its output only on success
  (`BuilderSteps`, `BuilderRun`).
- `agent_tools/environment_deployers.py` and `agent_build/environment_deployers/deployers.py`:
  two earlier deployer generations, with memoised checksums and the image/archive cache decision.
  The later one deploys a base deployer first (`ToolsDeployers`, `BuildDeployers`, sharing
  `DeployerFiles` and `DockerHost`).
- `agent_tools/build_and_test_specs.py`: Initial and Following deployments whose names encode
  the whole chain, their registry, and the package build and test specs (`BuildAndTestSpecs`).
- `agent_build/package_builders.py`: the CHANGELOG parser, the release-notes printer, the MSI
  version rewrite, and builder and output names (`ChangeLog`, `PackageBuilders`).
- `tests/package_tests/current_test_specifications.py`: package test naming and the test
  registries (`CurrentTestSpecs`).
- Small helpers: `agent_common/utils.py` (`CommonUtils`), both `constants.py` files
  (`BuildConstants`, `ToolsConstants`) and `scalyr_agent/monitor_utils/docker.py`
  (`DockerSocket`).

Processes, Docker and the file system are abstract state. `DockerHost.HostState` holds:

- the set of local image tags;
- the directories on disk, each a map from file name to content;
- the log of commands started, in order.

A script's success is an input: the set of scripts that fail. The checkout is an abstract
`SourceTree.Tree`. It provides what each glob yields, what each file's mode and bytes are, how
directories are walked, and the `Path.match` test. SHA-256 is an uninterpreted function
(`Hashing.Hasher`) over the concatenated updates. A property that needs the hash to separate
two inputs takes that as an explicit precondition (`Hashing.CollisionFree`). The class-level
registries of the source are explicit state: a `map` field of a registry object, or a value
threaded through the calls. The modules `Wrappers`, `Strings`, `Paths` and `Hashing` hold the
generic pieces: `Result`/`Option`, ASCII versions of `str.lower` and `str.rstrip`, `split`,
`splitlines` and `join`, path order and sorting, and the hash.

## Model

| member | source | states |
|---|---|---|
| BuildConstants.ArchitectureOf | agent_build/tools/constants.py:9-12 | the lookup by value succeeds with the member whose value is the text, and an unknown text raises `ValueError` because no member has that value |
| BuildConstants.ArchitectureOfValue | agent_build/tools/constants.py:9-12 | each of the three values `x86_64`, `arm64`, `noarch` looks its own member up |
| BuildConstants.AsDockerPlatform | agent_build/tools/constants.py:14-25 | the map is total: `arm64` gives `linux/arm64`, and both `x86_64` and `noarch` give `linux/amd64` |
| ToolsConstants.ArchitectureOf | agent_tools/constants.py:9-11 | the lookup by value succeeds with the member whose value is the text, and any other text raises `ValueError` |
| ToolsConstants.ArchitectureOfValue | agent_tools/constants.py:9-11 | the two values `x86_64` and `arm64` look up their own members |
| ToolsConstants.AsDockerPlatform | agent_tools/constants.py:13-22 | `x86_64` gives `amd64` and `arm64` gives `arm64`, over both architectures |
| ToolsConstants.AsDockerPlatformInjective | agent_tools/constants.py:19-22 | two architectures share a platform only when they are equal |
| ToolsConstants.PackageTypeValuesDistinct | agent_tools/constants.py:25-32 | the seven package type values are pairwise distinct strings |
| CommonUtils.FindFileInDirByGlob | agent_common/utils.py:6-18 | success exactly when the glob yields one match, and the result is that match; more than one match raises `ValueError`, none raises `FileNotFoundError`, each with its message |
| DockerSocket.ValidateDockerSocket | scalyr_agent/monitor_utils/docker.py:26-47 | on Windows the path is returned unchanged; elsewhere the call succeeds (returning None) exactly when the path exists and is not a socket, and every failure raises the same "does not exist or is not a socket" exception |
| DockerSocket.ValidateDockerSocketFixed | scalyr_agent/monitor_utils/docker.py:26-29 | the validation the docstring describes: off Windows it succeeds exactly for an existing socket |
| DockerSocket.ValidateRejectsRealSocket | scalyr_agent/monitor_utils/docker.py:36-39 | off Windows, as written, a real socket is rejected and an existing non-socket accepted; the corrected check does the opposite |
| DockerSocket.FullApiSocketPath | scalyr_agent/monitor_utils/docker.py:50-58 | on Windows the URL starts with `npipe:` and two backslashes, elsewhere with `unix:/`, and it ends with the path |
| DockerSocket.FullApiSocketPathRoundTrip | scalyr_agent/monitor_utils/docker.py:50-58 | the path is recovered from the URL, and the URL has the named-pipe prefix exactly on Windows |
| DockerHost.VolumeOptions | agent_tools/environment_deployers.py:178-184 | two options (`-v host:container`) per used file |
| DockerHost.WriteFile | agent_tools/environment_deployers.py:219-224 | the cache directory is created if needed and the archive file written in it; other directories, the images and the log are untouched |
| DockerHost.LoadArchive | agent_tools/environment_deployers.py:158-165 | `docker load` is logged; it succeeds exactly when the archive file exists, and then adds the archived image |
| DockerHost.ExistingTagIsReused | agent_tools/environment_deployers.py:139-150 | an existing tag short-circuits the cache decision: only the image query is made and the call succeeds |
| DockerHost.CachedArchiveIsLoaded | agent_tools/environment_deployers.py:152-165 | with no image but an archive in the cache directory, only `docker load` follows the query, and the tag is then present |
| DockerHost.BuildSequence | agent_tools/environment_deployers.py:166-224 | otherwise `rm`, `run` and (on success) `commit` follow the query in that order; an archive is saved exactly when a cache directory was given and the script succeeded, and the directories change only then |
| DockerHost.BuildOrReuseIdempotent | agent_tools/environment_deployers.py:137-150 | after a successful decision the tag is present, and a second decision is a pure lookup |
| DockerHost.BuildOrReuseKeepsArchives | agent_tools/environment_deployers.py:152-224 | a decision removes no image and leaves every archive holding the image it is named after |
| DockerHost.BuildOrReuseExtendsLog | agent_tools/environment_deployers.py:139-224 | a decision only appends to the command log |
| DockerHost.NoCacheDirNoArchive | agent_tools/environment_deployers.py:218-219 | without a cache directory, no file is ever written |
| DockerHost.Host.Exec | agent_tools/environment_deployers.py:113-115 | `check_call` of a command appends it to the log and succeeds unless the script fails |
| DockerHost.Host.RunCached | agent_tools/environment_deployers.py:139-224 | the imperative decision with its `save_to_cache` flag leaves the host in the state, and returns the outcome, that the cache decision function gives |
| DeployerFiles.NodeFilesReaches | agent_tools/environment_deployers.py:240-252 | the files `get_dir_files` lists below a directory are exactly the files reachable without entering a `__pycache__` directory |
| DeployerFiles.PathsFiles | agent_tools/environment_deployers.py:261-266 | one list of files per used path, a directory replaced by its files and a plain path kept |
| DeployerFiles.DeployerUsedFilesMembers | agent_tools/environment_deployers.py:254-268 | the script comes first, and a path is listed exactly when it is the script, a used plain path or a file reached below a used directory |
| DeployerFiles.DeployerUsedFilesSameLayout | agent_tools/environment_deployers.py:234-268 | the used-files list depends only on which used paths are directories and on the walks below them |
| DeployerFiles.DeployerChunks | agent_tools/environment_deployers.py:282-286 | three hash updates per file: its path under the source root, its mode, its bytes |
| DeployerFiles.DeployerChunksSameFiles | agent_tools/environment_deployers.py:282-286 | only the modes and bytes of the listed files feed the hash |
| DeployerFiles.DeployerChecksumSameInputs | agent_tools/environment_deployers.py:270-289 | the checksum is a function of the used paths' layout and of the listed files' modes and bytes alone |
| DeployerFiles.DeployerChunksAppend | agent_tools/environment_deployers.py:282-286 | one more file adds its three updates at the end |
| DeployerFiles.FeedOneFile | agent_tools/environment_deployers.py:282-286 | the bytes fed after one more loop turn are those fed before, then the file's path, mode and bytes |
| DeployerFiles.ScriptCommand | agent_tools/environment_deployers.py:99-110 | `powershell` for a `.ps1` script and the `bash` found on the path otherwise, then the script path, then the cache directory only when one is given |
| DeployerFiles.LowerImagePrefix | agent_tools/environment_deployers.py:231 | the fixed image-name prefix is already lower case |
| DeployerFiles.LowerImageName | agent_tools/environment_deployers.py:231 | lowering the whole image name lowers the name, the checksum and the tail piece by piece |
| DeployerFiles.ChecksumPartDetermined | agent_tools/environment_deployers.py:231 | with the name and tail fixed, two image names are equal exactly when their checksum parts are |
| DeployerFiles.CollectDirFiles | agent_tools/environment_deployers.py:240-252 | the recursive loop of `get_dir_files` returns exactly the files the walk function lists |
| DeployerFiles.CollectPathFiles | agent_tools/environment_deployers.py:262-266 | one used path contributes its directory's files or itself |
| DeployerFiles.CollectUsedFiles | agent_tools/environment_deployers.py:254-268 | the append loop of `_get_used_files` returns the script followed by every used path's files, in order |
| DeployerFiles.HashFiles | agent_tools/environment_deployers.py:281-289 | the `sha256.update` loop returns the digest of every listed file's path, mode and bytes, in list order |
| ToolsDeployers.ImageName | agent_tools/environment_deployers.py:227-231 | the image name is the prefix, the lowered name, the lowered checksum and the architecture value, dash-separated; it starts with the prefix and ends with the architecture value |
| ToolsDeployers.ImageNameShape | agent_tools/environment_deployers.py:231 | lowering the dash-joined parts keeps the prefix and a lower-case tail in place |
| ToolsDeployers.ImageNameDeterminedByChecksum | agent_tools/environment_deployers.py:227-231 | for one deployer and architecture the image name changes exactly when the lowered checksum does |
| ToolsDeployers.ImageNameSeparatesArchitectures | agent_tools/environment_deployers.py:227-231 | images built for `x86_64` and for `arm64` never share a name, whatever the deployers |
| ToolsDeployers.EnvironmentDeployer.constructor | agent_tools/environment_deployers.py:72-82 | the fields are the arguments (an absent used-files list being the empty one), and nothing is memoised yet |
| ToolsDeployers.EnvironmentDeployer.GetUsedFiles | agent_tools/environment_deployers.py:234-268 | `_get_used_files` returns the script and then every used path's files |
| ToolsDeployers.EnvironmentDeployer.GetUsedFilesChecksum | agent_tools/environment_deployers.py:270-289 | a truthy memoised checksum is returned unchanged, otherwise the files are hashed and the result memoised; a valid memo stays valid, so every call returns the checksum of the checkout |
| ToolsDeployers.EnvironmentDeployer.GetImageName | agent_tools/environment_deployers.py:227-231 | the image name of the deployer's (memoised) checksum and the architecture |
| ToolsDeployers.EnvironmentDeployer.Run | agent_tools/environment_deployers.py:89-115 | exactly one command is logged, the script command with the cache directory argument when one is given; it fails when the script does |
| ToolsDeployers.EnvironmentDeployer.RunInDocker | agent_tools/environment_deployers.py:117-224 | the host ends in the state of the cache decision on the caller's tag, with the container named after the deployer's own image name and run on the architecture's platform |
| ToolsDeployers.RunInDockerReusesImage | agent_tools/environment_deployers.py:139-150 | an existing tag means nothing but the query happens |
| ToolsDeployers.RunInDockerLoadsArchive | agent_tools/environment_deployers.py:152-165 | a cached archive of the tag means only `docker load` follows the query |
| ToolsDeployers.RunInDockerBuilds | agent_tools/environment_deployers.py:171-224 | otherwise the container named after the deployer image is removed, run from the base image and committed as the caller's tag, and saved when a cache directory is given |
| BuildDeployers.ImageName | agent_build/environment_deployers/deployers.py:239-242 | the image name is the prefix, the lowered name, the lowered checksum and the lowered base image with `:` replaced by `_`, dash-separated |
| BuildDeployers.ImageNameDeterminedByBase | agent_build/environment_deployers/deployers.py:239-242 | with name and checksum fixed, two base images give the same name exactly when they agree up to case and `:` versus `_` |
| BuildDeployers.ImageNameDeterminedByChecksum | agent_build/environment_deployers/deployers.py:239-242 | for one deployer and base image the name changes exactly when the lowered checksum does |
| BuildDeployers.EnvironmentDeployer.constructor | agent_build/environment_deployers/deployers.py:69-81 | the fields are the arguments, nothing is memoised, and the base chain is well founded |
| BuildDeployers.EnvironmentDeployer.GetUsedFiles | agent_build/environment_deployers/deployers.py:245-279 | `_get_used_files` returns the script and then every used path's files (only this deployer's own) |
| BuildDeployers.EnvironmentDeployer.GetUsedFilesChecksum | agent_build/environment_deployers/deployers.py:281-300 | a truthy memoised checksum is returned unchanged, otherwise the deployer's own files are hashed and memoised |
| BuildDeployers.EnvironmentDeployer.GetImageName | agent_build/environment_deployers/deployers.py:239-242 | the image name of the deployer's (memoised) checksum and the base image |
| BuildDeployers.EnvironmentDeployer.Deploy | agent_build/environment_deployers/deployers.py:92-118 | exactly the script command is logged, with the cache directory when given |
| BuildDeployers.EnvironmentDeployer.DeployInDocker | agent_build/environment_deployers/deployers.py:120-137 | the host ends in the state the recursive specification gives: the base chain first (a failure stopping everything), then this deployer's cache decision; all memos stay valid |
| BuildDeployers.EnvironmentDeployer.DeployOwn | agent_build/environment_deployers/deployers.py:139-236 | the cache decision on this deployer's image name, which also names the container |
| BuildDeployers.EnvironmentDeployer.ImageNames | agent_build/environment_deployers/deployers.py:201-211 | the container name is this deployer's image name, and the container starts from the base deployer's image name when there is one, else from the given base image |
| BuildDeployers.OwnStepExtendsLog | agent_build/environment_deployers/deployers.py:139-236 | one cache decision only appends to the log |
| BuildDeployers.BaseDeployedFirst | agent_build/environment_deployers/deployers.py:133-137 | the base deployer's whole effect comes first; when it fails, nothing of this deployer runs |
| BuildDeployers.DeployExtendsLog | agent_build/environment_deployers/deployers.py:120-236 | a deployment keeps everything logged before it, in front |
| BuildDeployers.DerivedBuildStartsFromBaseImage | agent_build/environment_deployers/deployers.py:206-228 | when a derived deployer builds, the base deployer's image is present and is the image its container starts from, and rm, run and commit follow the query |
| BuildDeployers.ChainQueries | agent_build/environment_deployers/deployers.py:146-157 | the queries of a deployment that finds every image end with this deployer's own query |
| BuildDeployers.OwnStepKeepsChain | agent_build/environment_deployers/deployers.py:139-236 | one cache decision keeps every image and every faithful archive of another chain |
| BuildDeployers.DeployKeepsChain | agent_build/environment_deployers/deployers.py:120-236 | a whole deployment keeps every image and faithful archive of another chain |
| BuildDeployers.DeployEstablishesChain | agent_build/environment_deployers/deployers.py:120-236 | a successful deployment leaves the image of every deployer of the chain present |
| BuildDeployers.PresentChainOnlyQueries | agent_build/environment_deployers/deployers.py:144-157 | with every image of the chain present, a deployment only queries the tags, base chain first |
| BuildDeployers.RedeployIsIdempotent | agent_build/environment_deployers/deployers.py:120-236 | deploying again after a success rebuilds, loads and writes nothing; it only queries each image |
| BuildDeployers.DerivedNameIgnoresBase | agent_build/environment_deployers/deployers.py:239-242 | as written, a deployer's image name is the same for two checkouts that differ only in its base deployer's files |
| BuildDeployers.StaleDerivedImageIsReused | agent_build/environment_deployers/deployers.py:144-157 | so a derived image built on an older base image is found present and reused, whatever the base deployment just did |
| BuildDeployers.SeededNameSeesBase | agent_build/environment_deployers/deployers.py:239-242 | with the checksum seeded by the base deployer's, a change that reaches the base checksum changes the derived image name (no hash collision assumed) |
| BuildDeployers.NewDeployers | agent_build/environment_deployers/deployers.py:312-361 | the `python` deployer has no used files and no base; `base_environment` uses the four requirements files, builds on `python`, and its script is chosen by platform; both are registered by name |
| EnvironmentDeployments.SnakeName | agent_tools/environment_deployments.py:148-154 | the step name (an `_` before every upper-case letter but the first character, then lowered) has no upper-case letter |
| EnvironmentDeployments.SnakeNameRoundTrip | agent_tools/environment_deployments.py:148-154 | for a CapWords class name the class name is recovered from the step name, so no two such classes share a step name (`InstallPythonStep` and `install_python_step`) |
| EnvironmentDeployments.StepName | agent_tools/environment_deployments.py:148-154 | a step's name is the snake name of its class and has no upper-case letter |
| EnvironmentDeployments.First | agent_tools/environment_deployments.py:118-123 | following the predecessors ends at a step without one |
| EnvironmentDeployments.InitialIsFirstBase | agent_tools/environment_deployments.py:118-135 | `initial_docker_image` is the base image of the first step of the chain, and `in_docker` holds exactly when that is not None |
| EnvironmentDeployments.FileChunks | agent_tools/environment_deployments.py:368-372 | three hash updates per used file: root-relative path, mode, bytes |
| EnvironmentDeployments.SeedChunks | agent_tools/environment_deployments.py:374-375 | the seed is one more update exactly when it is truthy |
| EnvironmentDeployments.UsedFilesSameInputs | agent_tools/environment_deployments.py:333-354 | the used files (script and glob matches, sorted) do not depend on the order the globs yield their matches in |
| EnvironmentDeployments.FileChunksSameFiles | agent_tools/environment_deployments.py:368-372 | only the modes and bytes of the listed files feed the hash |
| EnvironmentDeployments.ChecksumDependsOnlyOnUsedFiles | agent_tools/environment_deployments.py:137-145 | a step's `checksum` is the same in two checkouts that agree, along the whole chain, on the glob matches up to order and on the used files' modes and bytes |
| EnvironmentDeployments.ChecksumPropagates | agent_tools/environment_deployments.py:356-376 | two different non-empty seeds give different checksums over the same files, if the hash does not collide there |
| EnvironmentDeployments.UsedFileEditChangesChecksum | agent_tools/environment_deployments.py:356-376 | an edit to the bytes of a used file that keeps every used file's mode and size changes the step's checksum, whatever the seed, if the hash does not collide there |
| EnvironmentDeployments.FileUpdatesDiffer | agent_tools/environment_deployments.py:367-372 | with the files' modes and sizes equal, the two update streams are equally long, and they differ when some file's bytes do |
| EnvironmentDeployments.FileEditReachesNextStep | agent_tools/environment_deployments.py:137-145 | an edit to a file the first step uses changes its checksum, and through the seed the next step's checksum and cache name, although nothing the next step uses changed |
| EnvironmentDeployments.GetUsedFiles | agent_tools/environment_deployments.py:333-354 | the `extend` loop returns the script and every glob match, sorted |
| EnvironmentDeployments.FeedOneFile | agent_tools/environment_deployments.py:368-372 | one more loop turn feeds the file's path, mode and bytes after what was fed before |
| EnvironmentDeployments.FeedSeed | agent_tools/environment_deployments.py:374-375 | the seed's bytes are fed last, and only when it is truthy |
| EnvironmentDeployments.FeedFiles | agent_tools/environment_deployments.py:367-372 | the update loop feeds every file's three updates in sorted order |
| EnvironmentDeployments.GetUsedFilesChecksum | agent_tools/environment_deployments.py:356-376 | the digest of the sorted files' updates followed by the seed when truthy |
| EnvironmentDeployments.CacheNameDeterminedByChecksum | agent_tools/environment_deployments.py:177-183 | with equal unique names, two cache names (and result image names) are equal exactly when the checksums are |
| EnvironmentDeployments.CacheKeyPropagates | agent_tools/environment_deployments.py:137-145 | a predecessor whose checksum changed gives a different cache key downstream, everything else being equal and the hash not colliding |
| EnvironmentDeployments.UniqueNameShape | agent_tools/environment_deployments.py:156-175 | the unique name starts with the step name and ends with the initial image (`:` made `_`) in Docker, else with the architecture value |
| EnvironmentDeployments.UniqueNameSeesOnlyPrevious | agent_tools/environment_deployments.py:163-166 | only the immediate predecessor's name enters the unique name, so steps whose earlier chains differ share it and are told apart by the checksum alone |
| EnvironmentDeployments.NewStep | agent_tools/environment_deployments.py:106-114 | without a truthy base image a step with a predecessor starts from the predecessor's result image; otherwise the given base image is kept |
| EnvironmentDeployments.BuildStep | agent_tools/environment_deployments.py:88-114 | a constructed step holds the base image the constructor settles on and the checksum of its files seeded with the predecessor's checksum |
| EnvironmentDeployments.ChainChecksums | agent_tools/environment_deployments.py:137-145 | one checksum per class of a chain, each seeded with the checksum before it |
| EnvironmentDeployments.StoredChecksumIsChainChecksum | agent_tools/environment_deployments.py:137-145 | every step of a built chain holds the checksum its `checksum` property computes afresh through its predecessors |
| EnvironmentDeployments.StoredChecksumIsCurrent | agent_tools/environment_deployments.py:137-145 | the same for the checkout the deployment was built from |
| EnvironmentDeployments.ChainInitialImage | agent_tools/environment_deployments.py:118-135 | every step of a deployment has the deployment's base image as initial image, so all of them run in Docker or none does |
| EnvironmentDeployments.InDockerHasBase | agent_tools/environment_deployments.py:110-114 | a step of a deployment that runs in Docker always has a base image to start from |
| EnvironmentDeployments.RegisterSteps | agent_tools/environment_deployments.py:116 | every constructed step is registered under its name, and no name is dropped |
| EnvironmentDeployments.RegisterStepsAppend | agent_tools/environment_deployments.py:116 | registering one more step overwrites its name's entry, so the last step of a name wins |
| EnvironmentDeployments.Plans | agent_tools/environment_deployments.py:460-470 | one run plan per step, in step order, each with the step's own cache path |
| EnvironmentDeployments.MakePlan | agent_tools/environment_deployments.py:186-331 | one step's run: locally (or when not in Docker) the script command with the step's cache path, otherwise a container named after the result image, run from the step's base image on the architecture's platform |
| EnvironmentDeployments.RunPlan | agent_tools/environment_deployments.py:186-331 | a local step logs its one command and fails with its script; a Docker step makes the cache decision on its result image name |
| EnvironmentDeployments.BuildChain | agent_tools/environment_deployments.py:427-444 | one step per class; the first gets the deployment's base image and no predecessor, each later one links to the step before it and starts from its result image, and the checksums are the chain checksums |
| EnvironmentDeployments.Registry.constructor | agent_tools/environment_deployments.py:86 | both registries start empty |
| EnvironmentDeployments.Registry.RegisterAll | agent_tools/environment_deployments.py:116 | the steps are registered in order, the deployments left unchanged |
| EnvironmentDeployments.Deployment.constructor | agent_tools/environment_deployments.py:425-427 | a deployment with the given name and architecture and no steps yet |
| EnvironmentDeployments.Deployment.Create | agent_tools/environment_deployments.py:418-446 | an empty class list fails at `pop(0)` with `IndexError` and registers nothing; otherwise the chain has the fixed shape, its steps are registered and then the deployment under its name |
| EnvironmentDeployments.Deployment.ResultImageName | agent_tools/environment_deployments.py:449-451 | the last step's result image name, lowered character by character |
| EnvironmentDeployments.Deployment.Deploy | agent_tools/environment_deployments.py:453-470 | the steps run strictly in list order, each with `cache_dir/cache_name` or none; the first failure stops the deployment |
| EnvironmentDeployments.DeploymentPlans | agent_tools/environment_deployments.py:453-470 | a step runs in Docker exactly when not asked to run locally and the deployment has a base image; its tag and cache path carry its current cache name |
| EnvironmentDeployments.LocalDeployOrder | agent_tools/environment_deployments.py:201-219 | a local deployment runs the scripts strictly in list order, stops right after the first failing one, and touches no image or cache file |
| EnvironmentDeployments.StepKeepsReady | agent_tools/environment_deployments.py:242-331 | one Docker step removes no image and keeps every other step's archive faithful |
| EnvironmentDeployments.DockerDeployEstablishesImages | agent_tools/environment_deployments.py:453-470 | a successful Docker deployment leaves the image of every step present |
| EnvironmentDeployments.DeployKeeps | agent_tools/environment_deployments.py:453-470 | a Docker deployment keeps every image it finds and every faithful archive |
| EnvironmentDeployments.DockerDeployAllPresent | agent_tools/environment_deployments.py:242-253 | with every image present, a Docker deployment only queries the tags, in step order |
| EnvironmentDeployments.DockerRedeployIsIdempotent | agent_tools/environment_deployments.py:242-253 | deploying again after a successful Docker deployment rebuilds, loads and writes nothing |
| EnvironmentDeployments.CiCacheKeys | scripts/cicd/run_deployment.py:60-64 | the cache keys the CI job prints are the steps' cache names, last step first |
| BuildAndTestSpecs.First | agent_tools/build_and_test_specs.py:252-296 | the bottom of every deployment chain is an initial deployment |
| BuildAndTestSpecs.InheritedFromFirst | agent_tools/build_and_test_specs.py:282-292 | a following deployment has the architecture and initial docker image of its chain's initial deployment |
| BuildAndTestSpecs.DeployerNames | agent_tools/build_and_test_specs.py:269-288 | every chain names at least one deployer |
| BuildAndTestSpecs.NameEncodesChain | agent_tools/build_and_test_specs.py:269-288 | a deployment's name is every deployer's name, the last first, then the architecture value and the initial image with ':' replaced by '_', joined by underscores |
| BuildAndTestSpecs.FollowingNameExtends | agent_tools/build_and_test_specs.py:286-288 | a following deployment's name ends with the previous deployment's name and is strictly longer |
| BuildAndTestSpecs.DeploymentImageName | agent_tools/build_and_test_specs.py:214-225 | the image name exists exactly when the checksum does and starts with the deployment's name and '_' |
| BuildAndTestSpecs.AsWrittenFollowingHasNoImage | agent_tools/build_and_test_specs.py:298-302 | as written, a following deployment's checksum raises TypeError, so it has no image name and gives its successor no base image |
| BuildAndTestSpecs.SeededChecksumSeesPrevious | agent_tools/build_and_test_specs.py:298-302 | with the previous image name as seed, a change of the previous deployment's checksum changes the following checksum when the hash does not collide |
| BuildAndTestSpecs.SeededImageNameDeterminedByChecksum | agent_tools/build_and_test_specs.py:214-225 | two checkouts give a deployment the same image name exactly when they give it the same checksum |
| BuildAndTestSpecs.DeploymentCacheDir | agent_tools/build_and_test_specs.py:232-235 | no cache directory gives none; otherwise the cache directory joined with the cache name, or the error computing the name |
| BuildAndTestSpecs.DeployOwnExtendsLog | agent_tools/build_and_test_specs.py:227-249 | deploying one deployment only appends to the host's command log |
| BuildAndTestSpecs.DeployExtendsLog | agent_tools/build_and_test_specs.py:304-317 | deploying a chain only appends to the host's command log |
| BuildAndTestSpecs.PreviousDeployedFirst | agent_tools/build_and_test_specs.py:304-317 | unless only_this, the previous deployment runs first, its log comes first, and when it stops the following one does nothing |
| BuildAndTestSpecs.AsWrittenFollowingDeployRaises | agent_tools/build_and_test_specs.py:298-317 | as written, a following deployment with a cache directory or in docker raises TypeError after the previous one succeeds, running nothing of its own |
| BuildAndTestSpecs.DeployOwnReusesImage | agent_tools/build_and_test_specs.py:237-244 | a deployment in docker whose image tag is present only queries the tag |
| BuildAndTestSpecs.GetImageName | agent_tools/build_and_test_specs.py:214-225 | the method computes the image name of the as-written model and keeps every deployer's memoised checksum valid |
| BuildAndTestSpecs.Deploy | agent_tools/build_and_test_specs.py:304-317 | the host state and stop reason are those of the chain deployment specification |
| BuildAndTestSpecs.DeployOne | agent_tools/build_and_test_specs.py:227-249 | the host state and stop reason are those of deploying one deployment |
| BuildAndTestSpecs.GetCacheDir | agent_tools/build_and_test_specs.py:232-235 | the method computes the deployment's cache directory |
| BuildAndTestSpecs.GetBaseImage | agent_tools/build_and_test_specs.py:265-296 | the method computes the base docker image: the initial image, or the previous deployment's image name |
| BuildAndTestSpecs.DeployOneInDocker | agent_tools/build_and_test_specs.py:237-244 | the host state and stop reason are those of running the deployer in docker with the base image and image name |
| BuildAndTestSpecs.Intern | agent_tools/build_and_test_specs.py:336-341 | the registry gains the deployment's name, keeps every earlier entry, and the entry under the name is the result |
| BuildAndTestSpecs.NewDeployment | agent_tools/build_and_test_specs.py:320-334 | creating a deployment fails exactly when there is no deployer, with the IndexError of pop(0) |
| BuildAndTestSpecs.ChainFromRegisters | agent_tools/build_and_test_specs.py:347-361 | the loop keeps the registry filed by name and returns a deployment filed under the chain's name |
| BuildAndTestSpecs.NewDeploymentRegisters | agent_tools/build_and_test_specs.py:320-363 | the new deployment is registered under the name of the whole chain of deployers, and no earlier entry changes |
| BuildAndTestSpecs.ChainFromRerun | agent_tools/build_and_test_specs.py:347-361 | running the loop over a registry that holds everything it filed changes nothing |
| BuildAndTestSpecs.NewDeploymentIdempotent | agent_tools/build_and_test_specs.py:320-363 | creating the same deployment twice gives the same deployment and the same registry |
| BuildAndTestSpecs.NewDeploymentFresh | agent_tools/build_and_test_specs.py:320-363 | from an empty registry the result is the chain of all deployers on the given architecture and initial image, one deployment per deployer |
| BuildAndTestSpecs.BuildSpecNamesDistinct | agent_tools/build_and_test_specs.py:108-114 | two build specs share a name exactly when they share package type and architecture |
| BuildAndTestSpecs.NewBuildSpecGlob | agent_tools/build_and_test_specs.py:386-392 | the filename glob is the format with the builder's architecture name, or nothing, in place of {arch} |
| BuildAndTestSpecs.TargetValue | agent_tools/build_and_test_specs.py:434-440 | no target system value contains '_' |
| BuildAndTestSpecs.TestSpecName | agent_tools/build_and_test_specs.py:465-478 | a test spec's name fails, with ValueError, exactly for a remote spec of an unknown kind |
| BuildAndTestSpecs.TestSpecNamesDetermine | agent_tools/build_and_test_specs.py:465-478 | two test specs with the same name share package type, target system, architecture and kind of remote machine |
| BuildAndTestSpecs.RemoteTests | agent_tools/build_and_test_specs.py:506-514 | one test spec per remote machine, in order, each on that machine |
| BuildAndTestSpecs.AddRemoteTestsAppends | agent_tools/build_and_test_specs.py:506-514 | without an unknown remote spec, the specs are appended in order to the build spec's list and registered under their names |
| BuildAndTestSpecs.AddBuildTestsAppends | agent_tools/build_and_test_specs.py:496-523 | for one build spec, the new test specs are appended to its list and registered, and the deployment registry is the one the creation leaves |
| BuildAndTestSpecs.Registries.constructor | agent_tools/build_and_test_specs.py:181-183 | the registries start empty and filed by name |
| BuildAndTestSpecs.Registries.CreateNewDeployment | agent_tools/build_and_test_specs.py:320-363 | the method leaves the deployment registry and returns the deployment of the specification, keeping the test tables |
| BuildAndTestSpecs.Registries.Lookup | agent_tools/build_and_test_specs.py:336-341 | the method is Intern on the registry |
| BuildAndTestSpecs.Registries.ReFile | agent_tools/build_and_test_specs.py:361 | re-filing a deployment already filed under its name changes nothing |
| BuildAndTestSpecs.Registries.AddRemoteTestSpecs | agent_tools/build_and_test_specs.py:506-514 | the tables and error are those of the remote loop specification |
| BuildAndTestSpecs.Registries.CreateTestSpecs | agent_tools/build_and_test_specs.py:485-523 | the tables and error are those of create_test_specs' specification, and the registry stays filed by name |
| BuildAndTestSpecs.Registries.AddBuildTestSpecs | agent_tools/build_and_test_specs.py:496-523 | the tables and error are those of the per-build-spec specification |
| ChangeLog.PatternsArePrefixes | agent_build/package_builders.py:222-246 | the literal delimiter patterns match exactly the lines that start with them |
| ChangeLog.SameHasPrefix | agent_build/package_builders.py:269-270 | a line of a level starts with that level's prefix, which is stripped from it |
| ChangeLog.DownIsNextSame | agent_build/package_builders.py:222-246 | every level's down pattern is the next level's same pattern, and the third level has none |
| ChangeLog.HeaderEndsEveryLevel | agent_build/package_builders.py:276-280 | a release header belongs to no level and ends the section at every level |
| ChangeLog.ReadLoop | agent_build/package_builders.py:263-293 | reading never adds lines to the stack, and a section that starts with a line of its level consumes it |
| ChangeLog.ReadLeavesBottom | agent_build/package_builders.py:263-293 | what a section read leaves on the stack is the bottom of the stack it started with |
| ChangeLog.EmptyReadsNothing | agent_build/package_builders.py:260-261 | an empty stack reads as no notes |
| ChangeLog.SameLineKept | agent_build/package_builders.py:269-271 | a line of the level is kept without its prefix, ahead of what the rest reads to |
| ChangeLog.OuterLineEndsSection | agent_build/package_builders.py:274-280 | a line of an outer level stays on the stack and ends the section |
| ChangeLog.StrayLineRejected | agent_build/package_builders.py:281-292 | a line fitting no pattern of the level raises BadChangeLogFormat with the level and the line |
| ChangeLog.Accumulated | agent_build/package_builders.py:258-293 | what was gathered before is kept in front and does not change what is read after it |
| ChangeLog.ReadDepth | agent_build/package_builders.py:281-287 | notes read at a level nest at most three levels deep in all |
| ChangeLog.PrintAppend | agent_build/package_builders.py:1221-1229 | printing a list of notes is printing its parts one after the other |
| ChangeLog.NotesFile.PrintReleaseNotes | agent_build/package_builders.py:1210-1229 | the file gains exactly the printed lines of the notes, each behind its level's prefix, with a blank line after each first-level sublist |
| ChangeLog.ReadThenPrint | agent_build/package_builders.py:249-293 | printing what a section read, with the change log's prefixes and without blank lines, gives back the lines it popped, in file order |
| ChangeLog.SectionRoundTrip | agent_build/package_builders.py:249-293 | a section read from the stack and printed with the change log's prefixes gives back its lines in file order, blank lines aside |
| ChangeLog.SameLoop | agent_build/package_builders.py:266-271 | a popped line of the level is kept and the loop goes on below it |
| ChangeLog.UpLoop | agent_build/package_builders.py:274-280 | a line of an outer level ends the section and is pushed back |
| ChangeLog.DownLoop | agent_build/package_builders.py:281-287 | a line of the next level opens a sublist, whose error is the section's |
| ChangeLog.BadLoop | agent_build/package_builders.py:288-292 | any other line is an error |
| ChangeLog.LineStack.ReadSection | agent_build/package_builders.py:249-293 | on success the method returns the notes of the section specification and leaves its rest on the stack; otherwise its error |
| ChangeLog.LineStack.ParseReleases | agent_build/package_builders.py:338-383 | the method returns the releases of the release loop specification |
| ChangeLog.Uncommented | agent_build/package_builders.py:304-322 | the filter keeps no more lines than it is given |
| ChangeLog.UncommentedClean | agent_build/package_builders.py:306-322 | no kept line is blank or a comment marker |
| ChangeLog.FilterComments | agent_build/package_builders.py:304-322 | the loop with its in_comment flag keeps exactly the lines of the filter specification |
| ChangeLog.UncommentedAppend | agent_build/package_builders.py:306-322 | filtering two blocks is filtering the first, then the second from the comment state the first leaves |
| ChangeLog.PackagerLineKept | agent_build/package_builders.py:316-319 | a packager line is kept wherever it appears, inside a comment or not |
| ChangeLog.CommentDropped | agent_build/package_builders.py:312-315 | a comment of lines that are neither packager lines nor the closing marker leaves nothing |
| ChangeLog.VersionRun | agent_build/package_builders.py:199 | the version run is the longest prefix of digits, dots and underscores |
| ChangeLog.HeaderRoundTrip | agent_build/package_builders.py:199 | a header written from a version and a name reads back as that version and name |
| ChangeLog.HeaderNeedsPrefix | agent_build/package_builders.py:199 | every header line starts with "## " |
| ChangeLog.ReleaseFrom | agent_build/package_builders.py:347-381 | an accepted release has the header's version and name and the section's notes, and leaves the section's rest |
| ChangeLog.NextRelease | agent_build/package_builders.py:338-381 | fewer than two lines are an error; an accepted release is the header on top and leaves the bottom of the stack |
| ChangeLog.ReleaseFails | agent_build/package_builders.py:341-370 | the loop stops with the first error of a release |
| ChangeLog.ReleaseAccepted | agent_build/package_builders.py:347-381 | a release whose header, packager line, notes and date all read goes in front of the releases below it |
| ChangeLog.ReleasesSpec | agent_build/package_builders.py:338-383 | a non-empty change log that reads gives at least one release, the first being the header on top |
| ChangeLog.LineStack.constructor | agent_build/package_builders.py:331 | the stack holds the given lines |
| ChangeLog.NotesFile.constructor | agent_build/package_builders.py:1231-1232 | the notes file starts empty |
| ChangeLog.ParseChangeLog | agent_build/package_builders.py:184-383 | the method returns the releases of parse_change_log's specification |
| ChangeLog.ReadAboveStack | agent_build/package_builders.py:263-293 | lines further down the stack do not change a section read that reaches them only at a release header |
| ChangeLog.NextAboveStack | agent_build/package_builders.py:338-381 | a release read with more lines below it reads the same and leaves those lines below |
| ChangeLog.ReleasesAboveStack | agent_build/package_builders.py:338-383 | releases further down the stack come after those above them |
| ChangeLog.ReleasesInFileOrder | agent_build/package_builders.py:330-383 | two parts of the change log, the second at a release header, give the first part's releases, then the second's: releases come in file order |
| PackageBuilders.BuilderNameInjective | agent_build/package_builders.py:461-466 | a builder's name gives back its package type and architecture, so ALL_BUILDERS holds one builder per pair |
| PackageBuilders.DebGlob | agent_build/package_builders.py:1293-1300 | the Debian glob names x86_64 as amd64 and arm64 as arm64 |
| PackageBuilders.RpmGlob | agent_build/package_builders.py:1303-1310 | the RPM glob names x86_64 as x86_64 and arm64 as aarch64 |
| PackageBuilders.TarballGlob | agent_build/package_builders.py:1313-1324 | the tarball glob carries the architecture's own value |
| PackageBuilders.MsiGlob | agent_build/package_builders.py:1369-1373 | the MSI glob maps no architecture and is the same for all of them |
| PackageBuilders.MsiVersion | agent_build/package_builders.py:1380-1391 | a five-part version becomes four parts; any other version is kept as it is |
| PackageBuilders.MsiVersionDropsFourth | agent_build/package_builders.py:1384-1388 | of five parts the fourth is dropped and the others keep their order |
| PackageBuilders.MsiVersionIdempotent | agent_build/package_builders.py:1380-1391 | a rewritten version is not rewritten again |
| PackageBuilders.TarballName | agent_build/package_builders.py:1349-1359 | every tarball name ends with the architecture and .tar.gz, and carries "scalyr-agent-" exactly when it is versioned |
| PackageBuilders.TarballNameInjective | agent_build/package_builders.py:1349-1359 | a versioned tarball name gives back its version string and architecture |
| PackageBuilders.ContainerOutputName | agent_build/package_builders.py:969-978 | the name starts with scalyr-agent-<type> and is longer exactly when it is versioned |
| PackageBuilders.ContainerOutputNameInjective | agent_build/package_builders.py:969-978 | versioned container names of one type differ for different version strings |
| PackageBuilders.InstallerName | agent_build/package_builders.py:1464 | the installer name starts with ScalyrAgentInstaller- and ends with .msi |
| PackageBuilders.LiteralMatches | agent_build/package_builders.py:1324-1359 | a literal part of a glob matches itself and nothing else |
| PackageBuilders.StarMatches | agent_build/package_builders.py:1324-1359 | a '*' takes any word in front of what the rest of the glob matches |
| PackageBuilders.ThreeStarsMatch | agent_build/package_builders.py:1324-1359 | the three-star version pattern finds every name with three dotted words between its literal parts |
| PackageBuilders.TarballFoundByGlob | agent_build/package_builders.py:1324-1359 | every versioned tarball with a three-part version, whatever the variant, is found by the tarball builder's glob |
| PackageBuilders.FormatOneField | agent_build/package_builders.py:468-480 | formatting a glob with one {arch} field puts the value in place of the field |
| PackageBuilders.FieldFilled | agent_build/package_builders.py:468-480 | a field marker whose first character occurs nowhere else is replaced by the value |
| PackageBuilders.NoFieldUnchanged | agent_build/package_builders.py:468-480 | a glob without a field is left as it is, whatever the architecture |
| CurrentTestSpecs.SameNameSameBuilder | tests/package_tests/current_test_specifications.py:59-61 | builders filed under the same name in PACKAGE_TESTS have the same package type and architecture |
| CurrentTestSpecs.DashlessIsReplace | tests/package_tests/current_test_specifications.py:67-73 | the character map is what replace("-", "_") does |
| CurrentTestSpecs.UniqueNameShape | tests/package_tests/current_test_specifications.py:67-73 | the unique name is builder name, '_' and test name with every '-' turned into '_', then the remote suffix; it holds no '-' |
| CurrentTestSpecs.PlacementsKeepNamesApart | tests/package_tests/current_test_specifications.py:207-213 | the remote suffix keeps local, Docker and EC2 tests of the same builder and test name apart |
| CurrentTestSpecs.FirstTakersTakeEachKeyOnce | tests/package_tests/current_test_specifications.py:148-152 | the first takers of their keys are items of the list, none with a key already taken, no two with the same key, and together they take every key |
| CurrentTestSpecs.RemoveFirst | tests/package_tests/current_test_specifications.py:150 | list.remove drops one item when it is present and changes nothing otherwise |
| CurrentTestSpecs.RemovePastKept | tests/package_tests/current_test_specifications.py:150 | list.remove drops the first occurrence of the item |
| CurrentTestSpecs.AsWrittenFilterEmpties | tests/package_tests/current_test_specifications.py:148-152 | when every test's unique name is already registered, as it is after the constructors ran, the filter empties the list and registers nothing |
| CurrentTestSpecs.FilterKeepsFirst | tests/package_tests/current_test_specifications.py:148-152 | over distinct tests, the filter keeps exactly the first takers of the unique names and registers their names |
| CurrentTestSpecs.FirstRegistrationWins | tests/package_tests/current_test_specifications.py:59-61 | the first test registered under a unique name keeps it, and a later test of the same name changes nothing |
| CurrentTestSpecs.RegisterAppendsFresh | tests/package_tests/current_test_specifications.py:59-61 | registering a builder's tests takes their names, keeps every entry already there, and appends to the builder's list exactly the first takers of their names |
| CurrentTestSpecs.FilterBeforeRegistration | tests/package_tests/current_test_specifications.py:148-152 | run against ALL_TESTS as it stood before the tests were made, the filter keeps exactly the tests the constructors appended, with distinct, previously untaken names |
| CurrentTestSpecs.RunTestLocally | tests/package_tests/current_test_specifications.py:75-93 | a test is run locally exactly for DEB, RPM, TAR and MSI packages, with its package type, package path and API key |
| CurrentTestSpecs.ContainerPackagesNotRunLocally | tests/package_tests/current_test_specifications.py:75-93 | container packages never run their tests locally |
| CurrentTestSpecs.TestRegistry.constructor | tests/package_tests/current_test_specifications.py:35-36 | ALL_TESTS and PACKAGE_TESTS start empty |
| CurrentTestSpecs.TestRegistry.NewPackageTest | tests/package_tests/current_test_specifications.py:38-61 | the constructor fails exactly when the builder lacks DEPLOYMENT_STEPS or no step class is left; otherwise it makes the test with the builder's architecture by default and a new deployment named after the unique name, and registers the test |
| CurrentTestSpecs.TestRegistry.MakeTests | tests/package_tests/current_test_specifications.py:118-146 | one test per listed remote machine, in order, each of the class the machine spec calls for and registered by its constructor, or the error of the first that fails |
| CurrentTestSpecs.TestRegistry.FilterTests | tests/package_tests/current_test_specifications.py:148-152 | the list and ALL_TESTS are those of the filter specification; PACKAGE_TESTS is unchanged |
| CurrentTestSpecs.AfterBuilderAppends | tests/package_tests/current_test_specifications.py:118-154 | one builder appends to its own PACKAGE_TESTS list exactly the tests made for it that are first to take their unique names, and leaves every other builder's list as it was |
| CurrentTestSpecs.AfterBuilderKeeps | tests/package_tests/current_test_specifications.py:118-154 | one builder keeps every ALL_TESTS entry, and its value unless it is the builder's own name |
| CurrentTestSpecs.AfterBuildersFileEachName | tests/package_tests/current_test_specifications.py:118-154 | as written, after the builders every one of their names is filed in ALL_TESTS with an empty list |
| CurrentTestSpecs.TestRegistry.AddBuilderTests | tests/package_tests/current_test_specifications.py:118-154 | as written, a builder's tests are made, its PACKAGE_TESTS list gains exactly the tests first to take their unique names, other lists stay, and ALL_TESTS files an empty list under the builder's name, keeping every other entry |
| CurrentTestSpecs.TestRegistry.CreateTestSpecs | tests/package_tests/current_test_specifications.py:96-154 | create_test_specs fails exactly when some builder has remote machines but no step classes, with the error of the first such builder; the tables are those after each builder before it in turn (so each list gains its builder's first takers), and without an error an empty list is filed under every builder's name |
| BuilderSteps.AsDict | agent_build/tools/builder.py:54-58 | the dict keeps the image name and an architecture value that reads back as the image's architecture |
| BuilderSteps.IgnorePattern | agent_build/tools/builder.py:176-180 | a leading '/' of a .dockerignore line is dropped, nothing else |
| BuilderSteps.Dedup | agent_build/tools/builder.py:157-165 | the union holds each globbed path once |
| BuilderSteps.FoundPaths | agent_build/tools/builder.py:157-165 | found_paths holds exactly the paths some glob matches, each once |
| BuilderSteps.KeepTracked | agent_build/tools/builder.py:196-200 | the kept paths are exactly the found ones outside paths_excluded that are not directories |
| BuilderSteps.TrackedSources | agent_build/tools/builder.py:152-210 | the tracked paths are the kept globbed files, each once, then .dockerignore, then the script |
| BuilderSteps.TrackedFilePaths | agent_build/tools/builder.py:212-218 | the tracked file paths are sorted, a permutation of the collected paths, and hold exactly the kept globbed files, .dockerignore and the script |
| BuilderSteps.TrackedFilePathsIgnoreGlobOrder | agent_build/tools/builder.py:157-218 | the order in which globs yield their matches does not change the tracked file paths |
| BuilderSteps.InitTrackedFilePaths | agent_build/tools/builder.py:152-210 | the loops over globs, ignore lines, excluded directories and the set give distinct kept paths, then .dockerignore and the script |
| BuilderSteps.AppendMatches | agent_build/tools/builder.py:183-187 | paths_excluded gains exactly the found paths the ignore pattern matches |
| BuilderSteps.AppendChildren | agent_build/tools/builder.py:190-194 | paths_excluded gains exactly the descendants of its directories |
| BuilderSteps.SetToList | agent_build/tools/builder.py:197 | list() of a set holds its elements, each once |
| BuilderSteps.FilterDirs | agent_build/tools/builder.py:200 | the filter keeps exactly the paths that are not directories |
| BuilderSteps.GetTrackedFilePaths | agent_build/tools/builder.py:212-218 | the method computes the tracked file paths of the specification, whatever order the set yields |
| BuilderSteps.FileChunks | agent_build/tools/builder.py:38-41 | two updates per file, its path and its bytes |
| BuilderSteps.FileChunksSameContent | agent_build/tools/builder.py:38-41 | files with the same bytes give the same updates |
| BuilderSteps.CalculateFilesChecksum | agent_build/tools/builder.py:30-43 | the method returns the hash of every sorted file's path and bytes in order |
| BuilderSteps.FeedFiles | agent_build/tools/builder.py:38-41 | the update loop feeds the hash exactly the path and bytes of each file in order |
| BuilderSteps.FilesChecksumIgnoresOrderAndMode | agent_build/tools/builder.py:30-43 | the checksum depends on which files are listed and on their bytes, not on the list's order or the files' modes |
| BuilderSteps.SortTwice | agent_build/tools/builder.py:36-38 | sorting a sorted list changes nothing |
| BuilderSteps.Info | agent_build/tools/builder.py:220-241 | the info carries the step's name, one id per dependency, its settings, a base step id exactly when there is a base step, and a docker image exactly when the step runs in docker |
| BuilderSteps.DependencyIds | agent_build/tools/builder.py:234 | one id per dependency step |
| BuilderSteps.IdParts | agent_build/tools/builder.py:261-278 | the id is the lowercased name, "__" and the hex digest itself |
| BuilderSteps.InfoDependencyId | agent_build/tools/builder.py:234 | the info lists the dependencies' ids in order |
| BuilderSteps.InfoBaseId | agent_build/tools/builder.py:235 | the info names the base step's id |
| BuilderSteps.IdSeesInfo | agent_build/tools/builder.py:261-278 | steps of one name whose infos differ get different ids, when the JSON text and the hash do not collide |
| BuilderSteps.DependencyChangesId | agent_build/tools/builder.py:234 | replacing a dependency by one with another id changes the step's id |
| BuilderSteps.BaseChangesId | agent_build/tools/builder.py:235 | replacing the base step by one with another id changes the step's id |
| BuilderSteps.TrackedFileChangesChecksum | agent_build/tools/builder.py:30-43 | an edit of a tracked file that keeps every size changes the files checksum, when the hash does not collide |
| BuilderSteps.UpdatesDiffer | agent_build/tools/builder.py:38-41 | the update streams of two checkouts differ when some file's bytes differ and sizes agree |
| BuilderSteps.EnvResultImage | agent_build/tools/builder.py:675-686 | an environment step has a result image exactly when it runs in docker, named by its id on its base image's architecture |
| BuilderSteps.ResultImage | agent_build/tools/builder.py:132-133 | looking up result_image fails exactly on an artifact step |
| BuilderSteps.NewStep | agent_build/tools/builder.py:83-142 | construction fails exactly for an artifact step given as base; otherwise the step keeps its arguments, derives base step and base image from the base argument, and a cacheable step is appended to the given collection |
| BuilderSteps.DockerIsInherited | agent_build/tools/builder.py:117-135 | a step runs in docker exactly when the bottom of its base chain was given an image, and on that image's architecture |
| BuilderSteps.NewStepWellFormed | agent_build/tools/builder.py:117-135 | construction keeps every base step an environment step whose result image was handed down |
| BuilderSteps.AllUsedCacheableMembers | agent_build/tools/builder.py:280-299 | a step's list holds exactly the cacheable steps it uses, itself included |
| BuilderSteps.SelfLast | agent_build/tools/builder.py:295-297 | a cacheable step comes last in its own list |
| BuilderSteps.BuilderAllUsedCacheableMembers | agent_build/tools/builder.py:744-750 | the builder's list holds exactly the cacheable steps its cacheable steps use |
| BuilderSteps.Interpreter | agent_build/tools/builder.py:500-512 | .ps1, .sh and .py pick powershell, /bin/bash and python3; any other suffix leaves the variable unbound |
| BuilderSteps.CommandLineArgs | agent_build/tools/builder.py:481-519 | the command is the interpreter, the script and each dependency's output, in the container's mount point when the step runs in docker |
| BuilderSteps.LastValueNone | agent_build/tools/builder.py:542-545 | a name whose settings are all None has no value |
| BuilderSteps.LastValueIs | agent_build/tools/builder.py:542-545 | a setting with a value that no later setting of its name overrides gives the value |
| BuilderSteps.ApplySettings | agent_build/tools/builder.py:542-545 | the environment gains exactly the names with a value, each set to its last value, and keeps the rest |
| BuilderSteps.LocalEnv | agent_build/tools/builder.py:529-553 | SOURCE_ROOT is the isolated source root, STEP_OUTPUT_PATH is set, and every other variable is the last setting's value or the process environment's |
| BuilderSteps.StepEnv | agent_build/tools/builder.py:536-547 | the environment of a local run over any process environment, output and source root |
| BuilderSteps.LocalEnvSkipsNone | agent_build/tools/builder.py:543-544 | settings set to None leave the process environment alone |
| BuilderSteps.LocalEnvHasSetting | agent_build/tools/builder.py:542-545 | a setting with a value that no later setting of its name overrides reaches the script |
| BuilderSteps.SettingOptions | agent_build/tools/builder.py:433-435 | two docker options per setting, a None value included |
| BuilderSteps.VolumeOptions | agent_build/tools/builder.py:451-463 | the source root, the temporary output and two options per dependency |
| BuilderSteps.DependencyVolumes | agent_build/tools/builder.py:458-463 | two options per dependency |
| BuilderRun.BuildState.MakeDir | agent_build/tools/builder.py:353 | mkdir creates the one directory and changes nothing else |
| BuilderRun.BuildState.RemoveTree | agent_build/tools/builder.py:351 | rmtree removes everything below the directory and nothing else |
| BuilderRun.BuildState.Rename | agent_build/tools/builder.py:360 | rename puts everything below the old path below the new one, leaves nothing below the old path outside the new one, and touches nothing outside the two |
| BuilderRun.BuildState.CopyTree | agent_build/tools/builder.py:638 | copytree puts a copy of everything below the source below the target, touching nothing outside the target |
| BuilderRun.LoadImageSpec | agent_build/tools/builder.py:60-72 | load_image succeeds exactly when the daemon has the image or the archive exists, and the image is then present; no file changes |
| BuilderRun.PrepareSourceRootSpec | agent_build/tools/builder.py:555-572 | the isolated source root exists afterwards |
| BuilderRun.PrepareSourceRootFootprint | agent_build/tools/builder.py:555-572 | preparing the isolated source root changes nothing outside it and places every tracked file in it; unless files lay below a missing root, it then holds no file but the tracked ones |
| BuilderRun.RunLocallySpec | agent_build/tools/builder.py:529-553 | a local run succeeds exactly when the interpreter is known and the script does not fail, and changes no file |
| Strings.SplitLines | agent_build/tools/builder.py:172 | no line holds a line boundary, and a text without one is one line, or none when it is empty |
| BuilderSteps.AsWrittenDockerRunRaises | agent_build/tools/builder.py:465-479 | as written, the argument list holds the `DockerPlatform` member itself, so starting `docker run` raises `TypeError` for every step in docker |
| BuilderSteps.CorrectedDockerRunArgs | agent_build/tools/builder.py:465-479 | with `.value` the list holds only strings: docker, run, -i, the container name, the volumes, the platform value, the environment options, the working directory, the image and the command |
| BuilderSteps.ProcessArgs | agent_build/tools/builder.py:465-479 | a process starts exactly when every argument is a string, with those strings in order; otherwise it raises `TypeError` |
| BuilderRun.RunInDockerSpec | agent_build/tools/builder.py:656-673 | with the corrected platform argument, a docker run succeeds exactly when the interpreter is known and the script does not fail; an environment step then has committed its image and saved it as <id>.tar in the temporary output, the only file added |
| BuilderRun.ScriptFootprint | agent_build/tools/builder.py:376-399 | the info file, the source root and the script change only the temporary output and the isolated source root |
| BuilderRun.ScriptSpec | agent_build/tools/builder.py:376-399 | the part of _run after the previous steps succeeds exactly when the interpreter is known and the script does not fail |
| BuilderRun.ReadyTemp | agent_build/tools/builder.py:634-643 | the temporary output is emptied and made again, nothing else changing |
| BuilderRun.Finish | agent_build/tools/builder.py:645-650 | after a successful _run only the temporary output and, on a first run, the output change |
| BuilderRun.RunFootprint | agent_build/tools/builder.py:625-650 | a run of a step changes only its temporary output, its isolated source root, its output when it succeeds, and what belongs to the steps it uses |
| BuilderRun.StepRunFootprint | agent_build/tools/builder.py:362-399 | _run changes what belongs to the used steps only when it runs the previous steps |
| BuilderRun.PreviousFootprint | agent_build/tools/builder.py:367-374 | running the previous steps changes only what belongs to them |
| BuilderRun.DepsFootprint | agent_build/tools/builder.py:369-370 | running the dependency steps changes only what belongs to them |
| BuilderRun.OwnDirsApart | agent_build/tools/builder.py:144-150 | a step's output, temporary output and isolated source root do not overlap |
| BuilderRun.StepsApart | agent_build/tools/builder.py:144-150 | steps with different ids have disjoint directories |
| BuilderRun.FailedRunLeavesNoOutput | agent_build/tools/builder.py:332-360 | a run that fails leaves no output directory, so the next run does not take it for a cache |
| BuilderRun.SuccessfulRunLeavesOutput | agent_build/tools/builder.py:625-650 | a run that succeeds leaves the output directory in place |
| BuilderRun.FreshRunPublishesOutput | agent_build/tools/builder.py:353-360 | without a cache, a successful run ends by renaming the temporary output to the output |
| BuilderRun.CachedRerunKeepsOutput | agent_build/tools/builder.py:637-650 | an environment step that reruns on a copy of its cache leaves the cache exactly as it was, whatever the script does |
| BuilderRun.EnvironmentRunSavesArchive | agent_build/tools/builder.py:656-673 | a first successful docker run of an environment step leaves <id>.tar in its output and the image in the daemon |
| BuilderRun.CachedStepOnlyLoads | agent_build/tools/builder.py:625-632 | a cached artifact step does nothing, and a cached environment step in docker only queries and perhaps loads its image |
| BuilderRun.RebuiltImageIsNotRestored | agent_build/tools/builder.py:60-72 | as written, once the daemon has lost an environment step's image, the cached run fails although the saved archive is in the output |
| BuilderRun.SavedArchiveIsLoaded | agent_build/tools/builder.py:625-632 | loading from the saved archive succeeds whether or not the daemon still has the image |
| BuilderRun.RebuiltImageIsRestored | agent_build/tools/builder.py:625-673 | with the corrected archive path, a run after the daemon lost the image restores it without touching the file system |
| BuilderRun.BuildHost.Check | agent_build/tools/builder.py:549-553 | `check_call` is logged and fails exactly when its command is a failing one |
| BuilderRun.BuildHost.MakeDir | agent_build/tools/builder.py:353 | the host's state becomes the state after mkdir |
| BuilderRun.BuildHost.RemoveTree | agent_build/tools/builder.py:351 | the host's state becomes the state after rmtree |
| BuilderRun.BuildHost.Rename | agent_build/tools/builder.py:360 | the host's state becomes the state after the rename |
| BuilderRun.BuildHost.CopyTree | agent_build/tools/builder.py:638 | the host's state becomes the state after copytree |
| BuilderRun.BuildHost.WriteText | agent_build/tools/builder.py:377-378 | the info file exists afterwards and the write is logged |
| BuilderRun.BuildHost.CopySources | agent_build/tools/builder.py:568-572 | every tracked file is placed below the isolated source root |
| BuilderRun.BuildHost.Commit | agent_build/tools/builder.py:665-667 | after `docker commit` the daemon has the image |
| BuilderRun.BuildHost.Save | agent_build/tools/builder.py:74-80 | after `docker save` the archive file exists |
| BuilderRun.BuildHost.ImageExists | agent_build/tools/builder.py:64-70 | `docker images -q` reports exactly whether the daemon has the image |
| BuilderRun.BuildHost.Do | agent_build/tools/builder.py:387-389 | a command outside the modelled state is only logged |
| BuilderRun.BuildHost.Load | agent_build/tools/builder.py:72 | docker load fails exactly when the archive is missing and otherwise makes the image present |
| BuilderRun.LoadImage | agent_build/tools/builder.py:60-72 | the method follows the load_image specification |
| BuilderRun.GetCommandLineArgs | agent_build/tools/builder.py:481-519 | the method computes the command-line specification |
| BuilderRun.DependencyOutputs | agent_build/tools/builder.py:481-519 | one output path per dependency, in order |
| BuilderRun.GetLocalEnv | agent_build/tools/builder.py:536-547 | the settings loop builds the local environment of the specification |
| BuilderRun.PrepareSourceRoot | agent_build/tools/builder.py:555-572 | the method follows the source root specification |
| BuilderRun.RunLocally | agent_build/tools/builder.py:529-553 | the method follows the local run specification |
| BuilderRun.RunInDocker | agent_build/tools/builder.py:656-673 | the method follows the docker run specification (with the corrected platform argument), commit and save included |
| BuilderRun.StepRun | agent_build/tools/builder.py:362-399 | the method follows the _run specification |
| BuilderRun.RunPrevious | agent_build/tools/builder.py:367-374 | the loop over the dependencies and the base step follows the specification, stopping at a failure |
| BuilderRun.RunScript | agent_build/tools/builder.py:376-399 | the method follows the script specification |
| BuilderRun.Run | agent_build/tools/builder.py:625-650 | the method follows the run specification of either step class |
| BuilderRun.BuilderRun | agent_build/tools/builder.py:756-764 | the method follows the builder run specification |
| BuilderRun.RunAll | agent_build/tools/builder.py:760-764 | the loop runs the steps in order, stopping at the first failure |
| BuilderRun.RunAllAppend | agent_build/tools/builder.py:760-764 | running two lists one after the other is running their concatenation |
| BuilderRun.BuilderRunsCacheableFirst | agent_build/tools/builder.py:756-764 | every cacheable step runs before any used step, and no used step runs once a cacheable one failed |

## Left out

- Processes, Docker and the file system are abstract state: the output of subprocesses, Docker's own caching, file permissions and the bytes of image archives are not modelled. A command's success is an input, the set of failing scripts.
- Concurrency is not modelled: nothing in the core runs in parallel, and two agents sharing a build root or an image store are outside the model.
- SHA-256, JSON serialisation and logging are not modelled as such. The hash is an uninterpreted function of the concatenated updates, and the JSON text of an info record is a function parameter. A property that needs two inputs to hash apart says so in its precondition (`Hashing.CollisionFree`); nothing relies on a fixed digest length.
- Globbing, `Path.match`, `is_dir`, directory walks and file bytes come from an abstract checkout (`SourceTree.Tree`). Glob wildcards are modelled only for the literal-and-`*` patterns the package builders use, not `?`, `[...]` or `**`.
- Strings.Lower, Strings.LowerChar and Strings.RStrip are ASCII only. Python's `str.lower` and `str.rstrip` also act on non-ASCII letters and whitespace. The model is exact for ASCII text.
- BuilderSteps.IgnorePattern drops one leading `/`. The `pl.Path` normalisation of a `.dockerignore` line is not modelled: repeated `/`, a trailing `/` and `.` parts are kept as written.
- The regular expressions of the CHANGELOG parser are written out as character tests over ASCII: `\s` is space, tab, newline, carriage return, form feed, vertical tab and the separators `\x1c`-`\x1f`, as in Python's `str.isspace`, and `\d` is an ASCII digit. The packager-line pattern and `parse_date` are function parameters, because their matching and date arithmetic depend on library code that is not part of this model.
- Reading and writing files (the CHANGELOG, `.dockerignore`, the VERSION file, the release notes) is not modelled. The lines or the text are given as parameters, and printed notes are appended to a sequence of lines.
- `os.environ` is a parameter of the local run. The build root is a parameter of every builder-step function, instead of the `_build_root` field that `set_build_root` assigns (builder.py:308-318).
- The memoised `_overall_info` and `_tracked_file_paths` of a builder step are recomputed on each use. The model assumes the checkout does not change during a run, so the cached and recomputed values agree.
- `mkdir(parents=True)` creates only the directory itself. The parents up to the build root are not tracked as directories, because no modelled decision reads them.
- `rename`, `copytree`, `rmtree`, `docker commit` and `docker save` always succeed in the model. Only the scripts, `docker load` of a missing archive and an unknown script suffix can fail. A run that fails stops at once, as a raised exception does, and the model does not describe what it leaves in the temporary output.
- BuilderRun.FailedRunLeavesNoOutput, BuilderRun.SuccessfulRunLeavesOutput and the other output lemmas assume `Separated`. Every step in the tree must have a non-empty id without `/` that does not start with `~`, and no used step may share the id of the step that uses it. Ids are lowercased names joined to a hex digest, so this holds for step names without `/` when the hash does not collide.
- BuilderRun.RunInDockerSpec and BuilderSteps.DockerRunArgs: they model the `docker run` with the platform's `.value`, the corrected form of the Findings row for builder.py:465-479. The run is one logged command. Its stdout, the volumes' contents after the run and the platform flag's effect are not modelled.
- BuilderSteps.NewStep: the `AttributeError` for an artifact step given as base is raised when the constructor reads `result_image` (builder.py:132-133); the model returns it as the construction's error.
- The `Builder` subclasses, their `CACHEABLE_STEPS` lists and the concrete step definitions are not modelled; `Builder` here is any pair of step lists.
- ToolsDeployers.EnvironmentDeployer.RunInDocker: the deployer computes (and memoises) its own image name before the cache decision, while the source does so only on the build path. Its contract states only that the memo stays valid, so the timing cannot be observed.
- A deployment step stores its base image and checksum as fields computed at construction, instead of reading them again from its predecessor on every access. The construction's contract (`BasesAreResults`) ties each base image to the predecessor's result image.
- NotesFile.PrintReleaseNotes requires the notes to be no deeper than the prefixes given. Deeper notes make the source raise `IndexError`, which is not modelled.
- ChangeLog: a release whose parse fails leaves the releases read so far unreturned, as the raised exception does; no partial output is modelled.
- PackageBuilders: the container builders are not constructed. `name` reads `PACKAGE_TYPE.value` (package_builders.py:466), and these classes set `PACKAGE_TYPE` to a plain string (`"k8s"` at package_builders.py:1013), so each of their constructors raises `AttributeError` when it first reads `self.name` (package_builders.py:453). The `ALL_BUILDERS` registry and the build methods that run `dpkg`, `rpmbuild`, `fpm`, WiX or Docker are not modelled. Only the names, globs and version strings are modelled.
- `_add_package_build_specs` is not modelled as a loop. `BuildAndTestSpecs.NewBuildSpec` models one iteration (build_and_test_specs.py:386-392), and the module-level specs (`DEB_x86_64` and the others) are not built.
- The `run_in_docker` helper module (`get_dockerized_function`, `build`, `build_package_from_spec`) is not part of this model.
- EnvironmentDeployments.CiCacheKeys: the CI cache-key helper reads `step.cache_key`, which no step defines. The model uses each step's cache name in its place.
- BuildAndTestSpecs.Registries.CreateTestSpecs: always takes the additional deployer list as given. `additional_deployers` defaults to `None`, and left at `None` it would make `_create_new_deployment` raise `TypeError` at `deployers[:]` (agent_tools/build_and_test_specs.py:328). Every call site passes a list (agent_tools/build_and_test_specs.py:526-568), so that error path is not modelled.
- `COMMON_TEST_DEPLOYMENT` (agent_tools/environment_deployments.py:515-519) is a deployment built at import time and is not constructed here. The concrete step classes are constants naming their script and used files.
- CurrentTestSpecs: `Builder.name` is carried as a field of the builder value. `DEPLOYMENT_STEPS` and `BASE_DOCKER_IMAGE` form one optional pair, so a class without them gives `AttributeError`.
- CurrentTestSpecs.RemoveFirst: the `ValueError` of `list.remove` cannot happen, because the filter removes only tests it found in the list, so it is not modelled.
- `run_package_test` and `DockerBasedPackageTest.run` execute tests and are not modelled. The unused `locally` parameter is dropped.
- CurrentTestSpecs.TestRegistry.NewPackageTest: its contract does not state what creating the test's deployment adds to the deployment registry; that is stated by `EnvironmentDeployments.Deployment.Create`. `ALL_TESTS` is a map to an `Entry`, either a test or the list `create_test_specs` stores under a builder's name.

## Findings

| source | as written | input that shows it | evidently intended | confidence | as-written member | corrected member |
|---|---|---|---|---|---|---|
| scalyr_agent/monitor_utils/docker.py:36-39 | the exception is raised when `S_ISSOCK` holds, so a real socket is rejected and any existing non-socket accepted | off Windows, a path whose `stat` says it is a socket | accept exactly an existing socket, as the docstring says | not executed | DockerSocket.ValidateRejectsRealSocket | DockerSocket.ValidateDockerSocketFixed |
| tests/package_tests/current_test_specifications.py:148-154 | every test's constructor has already put it in `ALL_TESTS`, so the filter removes each one and the builder's list is always empty | a builder class that defines `DEPLOYMENT_STEPS` and `BASE_DOCKER_IMAGE`, with one or more test machines (no builder in package_builders.py defines them, so the module's own call at line 473 raises `AttributeError` at line 129 first) | keep the tests first to take their unique name | not executed | CurrentTestSpecs.AsWrittenFilterEmpties | CurrentTestSpecs.FilterBeforeRegistration |
| agent_build/environment_deployers/deployers.py:239-242 | a derived deployer's image name hashes only its own used files, not its base deployer's | two checkouts that differ only in a file the base deployer uses | the name changes whenever the base image does, so a stale derived image is not reused | not executed | BuildDeployers.DerivedNameIgnoresBase | BuildDeployers.SeededNameSeesBase |
| agent_tools/build_and_test_specs.py:298-302 | `checksum` passes `additional_seed=` to `get_used_files_checksum`, which takes no such argument, so it raises `TypeError` | any following deployment whose image name is asked for | the deployer's checksum seeded with the previous deployment's image name | not executed | BuildAndTestSpecs.AsWrittenFollowingHasNoImage | BuildAndTestSpecs.SeededChecksumSeesPrevious |
| agent_build/tools/builder.py:60-72 | `docker load -i` is given the image name as the archive path, a file nothing writes | an environment step cached in docker whose image the daemon no longer has | load the `<id>.tar` archive that the first run saved in the step's output | not executed | BuilderRun.RebuiltImageIsNotRestored | BuilderRun.RebuiltImageIsRestored |
| agent_build/tools/builder.py:465-479 | `--platform` is followed by `as_docker_platform`, a `DockerPlatform` enum member, not its `.value` string | any step that runs in docker | pass the platform string, `linux/amd64` or `linux/arm64` | not executed | BuilderSteps.AsWrittenDockerRunRaises | BuilderSteps.CorrectedDockerRunArgs |
