/** The package test specifications of `tests/package_tests/current_test_specifications.py`: the
    unique name of a test, the registries `ALL_TESTS` and `PACKAGE_TESTS` its constructor fills, and
    `create_test_specs`, which makes one test per remote machine listed for a builder's architecture. */
module CurrentTestSpecs {
  import opened Wrappers
  import opened Strings
  import opened Paths
  import opened SourceTree
  import opened ToolsConstants
  import PackageBuilders
  import EnvironmentDeployments
  import BuildAndTestSpecs

  type StepClass = EnvironmentDeployments.StepClass

  /** The class attributes `DEPLOYMENT_STEPS` and `BASE_DOCKER_IMAGE` a test reads from its builder. */
  datatype TestDefaults = TestDefaults(deploymentSteps: seq<StepClass>, baseDockerImage: Option<string>)

  /** A package builder as its tests see it: its package type, architecture and `name`, and the
      attributes above. `defaults` is `None` for a builder class that defines neither attribute,
      which is the case of every builder class in `package_builders.py`. */
  datatype Builder = Builder(packageType: PackageType, architecture: Architecture, name: string, defaults: Option<TestDefaults>)

  /** `name` is the property `PackageBuilder.name` of the builder's type and architecture. */
  ghost predicate WellNamed(b: Builder)
  {
    b.name == PackageBuilders.BuilderName(b.packageType, b.architecture)
  }

  /** Builders filed under the same name in `PACKAGE_TESTS` have the same type and architecture. */
  lemma SameNameSameBuilder(b1: Builder, b2: Builder)
    requires WellNamed(b1) && WellNamed(b2) && b1.name == b2.name
    ensures b1.packageType == b2.packageType && b1.architecture == b2.architecture
  {
    PackageBuilders.BuilderNameInjective(b1.packageType, b1.architecture, b2.packageType, b2.architecture);
  }

  datatype Ec2PlatformType = WINDOWS | LINUX

  /** `Ec2BasedPackageTest.Ec2MachineInfo`. */
  datatype Ec2Machine = Ec2Machine(imageName: string, imageId: string, sizeId: string, sshUsername: string, osFamily: Ec2PlatformType)

  /** A remote machine specification given to `create_test_specs`: a `DockerImageInfo`, an
      `Ec2MachineInfo`, or a value of any other type. */
  datatype RemoteSpec = DockerImageInfo(imageName: string) | Ec2MachineInfo(machine: Ec2Machine) | OtherMachine

  /** The class of a test: `PackageTest` itself, `DockerBasedPackageTest` or `Ec2BasedPackageTest`,
      with the machine information the latter two keep. */
  datatype Placement = Local | InDocker(imageName: string) | OnEc2(machine: Ec2Machine)

  /** A constructed test; the deployment is the object its constructor made. */
  datatype PackageTest = PackageTest(testName: string, builder: Builder, architecture: Architecture,
                                     placement: Placement, deployment: EnvironmentDeployments.Deployment)

  // ----- Unique names -----

  function Underscored(c: char): char
  {
    if c == '-' then '_' else c
  }

  /** `s.replace("-", "_")`: with a one-character pattern and value, every character is mapped. */
  function Dashless(s: string): string
  {
    seq(|s|, i requires 0 <= i < |s| => Underscored(s[i]))
  }

  /** `REMOTE_MACHINE_SUFFIX` with the `_` that joins it, or nothing for a local test. */
  function RemoteSuffix(p: Placement): string
  {
    match p
    case Local => ""
    case InDocker(_) => "_docker"
    case OnEc2(_) => "_ec2"
  }

  /** `unique_name` of a test with the given builder, test name and class: builder name and test name
      joined by `_` with every `-` replaced by `_`, then the remote machine suffix. */
  function NameOf(b: Builder, testName: string, p: Placement): string
  {
    Dashless(b.name + "_" + testName) + RemoteSuffix(p)
  }

  function UniqueName(t: PackageTest): string
  {
    NameOf(t.builder, t.testName, t.placement)
  }

  /** The name the constructor gives the test's deployment. */
  function TestDeploymentName(t: PackageTest): string
  {
    "package_test_" + UniqueName(t) + "_deployment"
  }

  /** The character map is what the general `str.replace` does with `-` and `_`. */
  lemma {:induction false} DashlessIsReplace(s: string)
    ensures Dashless(s) == ReplaceAll(s, "-", "_")
    decreases |s|
  {
    if |s| > 0 {
      DashlessIsReplace(s[1..]);
      assert s[..1] == "-" <==> s[0] == '-';
      assert Dashless(s) == [Underscored(s[0])] + Dashless(s[1..]);
    }
  }

  /** The unique name is the builder name, `_` and the test name, character by character with `-`
      turned into `_`, followed by the remote suffix; so it holds no `-`. */
  lemma UniqueNameShape(b: Builder, testName: string, p: Placement)
    ensures var s := b.name + "_" + testName; var r := NameOf(b, testName, p);
      && |r| == |s| + |RemoteSuffix(p)| && (forall i :: 0 <= i < |s| ==> r[i] == Underscored(s[i]))
      && r[|s|..] == RemoteSuffix(p) && '-' !in r
  {
    var s := b.name + "_" + testName;
    var r := NameOf(b, testName, p);
    assert r[|s|..] == RemoteSuffix(p);
    assert forall i :: |s| <= i < |r| ==> r[i] == RemoteSuffix(p)[i - |s|];
  }

  /** The suffix keeps remote tests apart from the local test of the same builder and test name,
      and from each other. */
  lemma PlacementsKeepNamesApart(b: Builder, testName: string, p: Placement, q: Placement)
    requires NameOf(b, testName, p) == NameOf(b, testName, q)
    ensures p.Local? == q.Local? && p.InDocker? == q.InDocker? && p.OnEc2? == q.OnEc2?
  {
    assert |NameOf(b, testName, p)| == |NameOf(b, testName, q)|;
  }

  // ----- Taking keys in order -----

  /** The keys of some items. */
  function KeysOf<T>(s: seq<T>, key: T -> string): set<string>
    decreases |s|
  {
    if s == [] then {} else KeysOf(s[..|s| - 1], key) + {key(s[|s| - 1])}
  }

  lemma {:induction false} KeysOfContain<T>(s: seq<T>, key: T -> string, i: nat)
    requires i < |s|
    ensures key(s[i]) in KeysOf(s, key)
    decreases |s|
  {
    if i < |s| - 1 {
      KeysOfContain(s[..|s| - 1], key, i);
    }
  }

  /** The items that are first to take their key, given the keys `known` already taken. */
  function FirstTakers<T>(s: seq<T>, key: T -> string, known: set<string>): seq<T>
    decreases |s|
  {
    if s == [] then []
    else
      var init := s[..|s| - 1];
      var x := s[|s| - 1];
      if key(x) in known + KeysOf(init, key) then FirstTakers(init, key, known) else FirstTakers(init, key, known) + [x]
  }

  ghost predicate KeysDistinct<T>(s: seq<T>, key: T -> string)
  {
    forall i, j :: 0 <= i < j < |s| ==> key(s[i]) != key(s[j])
  }

  ghost predicate Distinct<T>(s: seq<T>)
  {
    forall i, j :: 0 <= i < j < |s| ==> s[i] != s[j]
  }

  lemma TakerAdded<T>(f: seq<T>, x: T, key: T -> string)
    requires KeysDistinct(f, key) && key(x) !in KeysOf(f, key)
    ensures KeysDistinct(f + [x], key) && KeysOf(f + [x], key) == KeysOf(f, key) + {key(x)}
  {
    forall i | 0 <= i < |f| ensures key(f[i]) != key(x) {
      KeysOfContain(f, key, i);
    }
    assert (f + [x])[..|f|] == f;
  }

  /** The first takers are items of the list, none with a key known before, no two with the same
      key, and between them and the known keys they take every key of the list. */
  lemma {:induction false} FirstTakersTakeEachKeyOnce<T>(s: seq<T>, key: T -> string, known: set<string>)
    ensures var r := FirstTakers(s, key, known);
      && (forall i :: 0 <= i < |r| ==> r[i] in s && key(r[i]) !in known)
      && KeysDistinct(r, key) && KeysOf(r, key) <= KeysOf(s, key) && KeysOf(s, key) <= known + KeysOf(r, key)
    decreases |s|
  {
    if s != [] {
      var init := s[..|s| - 1];
      var x := s[|s| - 1];
      FirstTakersTakeEachKeyOnce(init, key, known);
      assert forall y :: y in init ==> y in s;
      if key(x) !in known + KeysOf(init, key) {
        TakerAdded(FirstTakers(init, key, known), x, key);
      }
    }
  }

  /** `list.remove`: the first item equal to `x` leaves the list. */
  function RemoveFirst<T(==)>(s: seq<T>, x: T): (r: seq<T>)
    ensures x in s ==> |r| == |s| - 1
    ensures x !in s ==> r == s
  {
    if s == [] then []
    else if s[0] == x then s[1..]
    else [s[0]] + RemoveFirst(s[1..], x)
  }

  lemma {:induction false} RemovePastKept<T>(kept: seq<T>, x: T, rest: seq<T>)
    requires x !in kept
    ensures RemoveFirst(kept + [x] + rest, x) == kept + rest
    decreases |kept|
  {
    if kept == [] {
      assert ([] + [x] + rest)[1..] == rest;
    } else {
      var s := kept + [x] + rest;
      assert s[0] == kept[0] && s[0] != x;
      assert s[1..] == kept[1..] + [x] + rest;
      RemovePastKept(kept[1..], x, rest);
      assert RemoveFirst(s, x) == [kept[0]] + RemoveFirst(s[1..], x);
      ConsAppend(kept, rest);
    }
  }

  lemma ConsAppend<T>(kept: seq<T>, rest: seq<T>)
    requires kept != []
    ensures [kept[0]] + (kept[1..] + rest) == kept + rest
  {
    assert kept == [kept[0]] + kept[1..];
  }

  /** The state of the filter loop of `create_test_specs` after it has looked at the items `seen`
      of its copy of the list: an item whose key is in the registry is removed from the list, any
      other is registered under its key. */
  function FilterAsWritten<T(==), E>(seen: seq<T>, list: seq<T>, all: map<string, E>, key: T -> string, entry: T -> E): (seq<T>, map<string, E>)
    decreases |seen|
  {
    if seen == [] then (list, all)
    else
      var s := FilterAsWritten(seen[..|seen| - 1], list, all, key, entry);
      var x := seen[|seen| - 1];
      if key(x) in s.1 then (RemoveFirst(s.0, x), s.1) else (s.0, s.1[key(x) := entry(x)])
  }

  lemma {:induction false} FilterRemovesEach<T, E>(s: seq<T>, all: map<string, E>, key: T -> string, entry: T -> E, k: nat)
    requires k <= |s| && forall i :: 0 <= i < |s| ==> key(s[i]) in all
    ensures FilterAsWritten(s[..k], s, all, key, entry) == (s[k..], all)
  {
    if k > 0 {
      FilterRemovesEach(s, all, key, entry, k - 1);
      assert s[..k][..k - 1] == s[..k - 1];
      assert s[k - 1..][1..] == s[k..];
    }
  }

  /** When every key of the list is already registered, the filter empties the list and registers
      nothing. */
  lemma AsWrittenFilterEmpties<T, E>(s: seq<T>, all: map<string, E>, key: T -> string, entry: T -> E)
    requires forall i :: 0 <= i < |s| ==> key(s[i]) in all
    ensures FilterAsWritten(s, s, all, key, entry) == ([], all)
  {
    FilterRemovesEach(s, all, key, entry, |s|);
    assert s[..|s|] == s;
  }

  lemma NotEarlier<T>(init: seq<T>, x: T, rest: seq<T>)
    requires Distinct(init + ([x] + rest))
    ensures x !in init
  {
    var l := init + ([x] + rest);
    forall i | 0 <= i < |init| ensures init[i] != x {
      assert l[i] == init[i] && l[|init|] == x;
    }
  }

  /** Over a list of distinct items, the filter keeps exactly the first takers of the keys, given
      the keys registered when it starts. */
  lemma {:induction false} FilterKeepsFirst<T, E>(seen: seq<T>, rest: seq<T>, list: seq<T>, all: map<string, E>, key: T -> string, entry: T -> E)
    requires list == seen + rest && Distinct(list)
    ensures var s := FilterAsWritten(seen, list, all, key, entry);
      s.0 == FirstTakers(seen, key, all.Keys) + rest && s.1.Keys == all.Keys + KeysOf(seen, key)
    decreases |seen|
  {
    if seen != [] {
      var init := seen[..|seen| - 1];
      var x := seen[|seen| - 1];
      assert list == init + ([x] + rest);
      FilterKeepsFirst(init, [x] + rest, list, all, key, entry);
      var f := FirstTakers(init, key, all.Keys);
      if key(x) in all.Keys + KeysOf(init, key) {
        NotEarlier(init, x, rest);
        FirstTakersTakeEachKeyOnce(init, key, all.Keys);
        assert x !in f;
        RemovePastKept(f, x, rest);
        assert f + ([x] + rest) == f + [x] + rest;
      } else {
        assert f + ([x] + rest) == (f + [x]) + rest;
      }
    }
  }

  // ----- The registries -----

  /** A value of `ALL_TESTS`: a test, or the list `create_test_specs` stores under a builder's name. */
  datatype Entry = Registered(test: PackageTest) | BuilderTests(tests: seq<PackageTest>)

  function Entered(t: PackageTest): Entry
  {
    Registered(t)
  }

  /** `ALL_TESTS` and `PACKAGE_TESTS` (a `defaultdict(list)`). */
  datatype Tables = Tables(allTests: map<string, Entry>, packageTests: map<string, seq<PackageTest>>)

  /** The end of the constructor: a test whose unique name is not yet taken is registered under it
      and appended to its builder's list; otherwise nothing changes. */
  function Register(t: Tables, test: PackageTest): Tables
  {
    var n := UniqueName(test);
    var b := test.builder.name;
    if n in t.allTests then t
    else Tables(t.allTests[n := Registered(test)],
                t.packageTests[b := BuildAndTestSpecs.TestsOf(t.packageTests, b) + [test]])
  }

  /** The first test registered under a unique name keeps it. */
  lemma FirstRegistrationWins(t: Tables, first: PackageTest, later: PackageTest)
    requires UniqueName(first) == UniqueName(later) && UniqueName(first) !in t.allTests
    ensures var r := Register(Register(t, first), later);
      r.allTests[UniqueName(later)] == Registered(first) && r == Register(t, first)
  {
  }

  /** The tests registered one after another, in order. */
  function RegisterTests(t: Tables, tests: seq<PackageTest>): Tables
    decreases |tests|
  {
    if tests == [] then t else Register(RegisterTests(t, tests[..|tests| - 1]), tests[|tests| - 1])
  }

  lemma RegisterOneMore(t: Tables, tests: seq<PackageTest>, x: PackageTest)
    ensures RegisterTests(t, tests + [x]) == Register(RegisterTests(t, tests), x)
  {
    assert (tests + [x])[..|tests|] == tests;
  }

  /** Registering tests of one builder takes their names and appends to that builder's list exactly
      the tests that are first to take their name; no entry already there changes. */
  lemma {:induction false} RegisterAppendsFresh(t: Tables, tests: seq<PackageTest>, b: string)
    requires forall i :: 0 <= i < |tests| ==> tests[i].builder.name == b
    ensures var r := RegisterTests(t, tests);
      && r.allTests.Keys == t.allTests.Keys + KeysOf(tests, UniqueName)
      && (forall k :: k in t.allTests ==> r.allTests[k] == t.allTests[k])
      && BuildAndTestSpecs.TestsOf(r.packageTests, b) == BuildAndTestSpecs.TestsOf(t.packageTests, b) + FirstTakers(tests, UniqueName, t.allTests.Keys)
      && (forall k :: k != b ==> BuildAndTestSpecs.TestsOf(r.packageTests, k) == BuildAndTestSpecs.TestsOf(t.packageTests, k))
    decreases |tests|
  {
    if tests != [] {
      var init := tests[..|tests| - 1];
      RegisterAppendsFresh(t, init, b);
      var s := RegisterTests(t, init);
      var x := tests[|tests| - 1];
      if UniqueName(x) !in s.allTests {
        var l := BuildAndTestSpecs.TestsOf(t.packageTests, b);
        var f := FirstTakers(init, UniqueName, t.allTests.Keys);
        assert l + f + [x] == l + (f + [x]);
      }
    }
  }

  /** Corrected: run against `ALL_TESTS` as it stood before the tests were made, the same filter
      keeps exactly the tests that are first to take their unique name, which are the tests the
      constructors appended to `PACKAGE_TESTS`; no two of them share a name and none was taken before. */
  lemma FilterBeforeRegistration(tests: seq<PackageTest>, t: Tables, b: string)
    requires Distinct(tests) && forall i :: 0 <= i < |tests| ==> tests[i].builder.name == b
    ensures var kept := FilterAsWritten(tests, tests, t.allTests, UniqueName, Entered).0;
      && BuildAndTestSpecs.TestsOf(RegisterTests(t, tests).packageTests, b) == BuildAndTestSpecs.TestsOf(t.packageTests, b) + kept
      && KeysDistinct(kept, UniqueName) && (forall i :: 0 <= i < |kept| ==> UniqueName(kept[i]) !in t.allTests)
  {
    FilterKeepsFirst(tests, [], tests, t.allTests, UniqueName, Entered);
    assert tests + [] == tests;
    RegisterAppendsFresh(t, tests, b);
    FirstTakersTakeEachKeyOnce(tests, UniqueName, t.allTests.Keys);
  }

  /** The tables after one builder of `create_test_specs`: its tests registered by their
      constructors, then, as written, an empty list filed under the builder's name. */
  function AfterBuilder(t: Tables, b: Builder, made: seq<PackageTest>): (r: Tables)
    ensures b.name in r.allTests && r.allTests[b.name] == BuilderTests([])
  {
    var registered := RegisterTests(t, made);
    Tables(registered.allTests[b.name := BuilderTests([])], registered.packageTests)
  }

  /** The tables after the builders in order, `made[i]` being the tests made for `builders[i]`. */
  function AfterBuilders(t: Tables, builders: seq<Builder>, made: seq<seq<PackageTest>>): (r: Tables)
    requires |made| == |builders|
    ensures t.allTests.Keys <= r.allTests.Keys
    decreases |builders|
  {
    if builders == [] then t
    else
      var n := |builders| - 1;
      AfterBuilderKeeps(AfterBuilders(t, builders[..n], made[..n]), builders[n], made[n]);
      AfterBuilder(AfterBuilders(t, builders[..n], made[..n]), builders[n], made[n])
  }

  /** An entry of `ALL_TESTS` stays, with its value, unless it is the builder's own name. */
  lemma AfterBuilderKeeps(t: Tables, b: Builder, made: seq<PackageTest>)
    ensures var r := AfterBuilder(t, b, made);
      && t.allTests.Keys <= r.allTests.Keys
      && forall k :: k in t.allTests && k != b.name ==> r.allTests[k] == t.allTests[k]
  {
    forall k | k in t.allTests ensures k in RegisterTests(t, made).allTests && RegisterTests(t, made).allTests[k] == t.allTests[k] {
      RegisterKeeps(t, made, k);
    }
  }

  /** As written, after the builders every one of their names is filed with an empty list. */
  lemma {:induction false} AfterBuildersFileEachName(t: Tables, builders: seq<Builder>, made: seq<seq<PackageTest>>)
    requires |made| == |builders|
    ensures var r := AfterBuilders(t, builders, made);
      forall i :: 0 <= i < |builders| ==> builders[i].name in r.allTests && r.allTests[builders[i].name] == BuilderTests([])
    decreases |builders|
  {
    if builders != [] {
      var n := |builders| - 1;
      var before := AfterBuilders(t, builders[..n], made[..n]);
      AfterBuildersFileEachName(t, builders[..n], made[..n]);
      AfterBuilderKeeps(before, builders[n], made[n]);
      assert forall i :: 0 <= i < n ==> builders[..n][i] == builders[i];
    }
  }

  lemma {:induction false} RegisterKeeps(t: Tables, tests: seq<PackageTest>, k: string)
    requires k in t.allTests
    ensures k in RegisterTests(t, tests).allTests && RegisterTests(t, tests).allTests[k] == t.allTests[k]
    decreases |tests|
  {
    if tests != [] { RegisterKeeps(t, tests[..|tests| - 1], k); }
  }

  /** One builder of `create_test_specs` appends to its own list in `PACKAGE_TESTS` exactly the tests
      made for it that are first to take their unique names, and leaves every other builder's list
      as it was. */
  lemma AfterBuilderAppends(t: Tables, b: Builder, made: seq<PackageTest>)
    requires forall i :: 0 <= i < |made| ==> made[i].builder.name == b.name
    ensures var r := AfterBuilder(t, b, made);
      && BuildAndTestSpecs.TestsOf(r.packageTests, b.name) == BuildAndTestSpecs.TestsOf(t.packageTests, b.name) + FirstTakers(made, UniqueName, t.allTests.Keys)
      && (forall k :: k != b.name ==> BuildAndTestSpecs.TestsOf(r.packageTests, k) == BuildAndTestSpecs.TestsOf(t.packageTests, k))
  {
    RegisterAppendsFresh(t, made, b.name);
  }

  lemma AfterOneMoreBuilder(t: Tables, builders: seq<Builder>, made: seq<seq<PackageTest>>, tests: seq<PackageTest>)
    requires |made| < |builders|
    ensures AfterBuilders(t, builders[..|made| + 1], made + [tests])
      == AfterBuilder(AfterBuilders(t, builders[..|made|], made), builders[|made|], tests)
  {
    var i := |made|;
    assert builders[..i + 1][..i] == builders[..i] && (made + [tests])[..i] == made;
  }

  // ----- Creating tests -----

  /** The deployment step classes of the test's deployment: the given ones, or the builder's
      `DEPLOYMENT_STEPS` when none are given. */
  function ClassesFor(b: Builder, stepClasses: seq<StepClass>): seq<StepClass>
    requires stepClasses == [] ==> b.defaults.Some?
  {
    if stepClasses != [] then stepClasses else b.defaults.value.deploymentSteps
  }

  /** The test `create_test_specs` makes for a remote machine spec: a Docker test for a
      `DockerImageInfo`, an EC2 test for an `Ec2MachineInfo` and a plain test for anything else. */
  function PlacementFor(spec: RemoteSpec): Placement
  {
    match spec
    case DockerImageInfo(n) => InDocker(n)
    case Ec2MachineInfo(m) => OnEc2(m)
    case OtherMachine => Local
  }

  /** `remote_machine_arch_specs.get(builder.architecture, [])`. */
  function MachinesFor(remoteMap: map<Architecture, seq<RemoteSpec>>, a: Architecture): seq<RemoteSpec>
  {
    if a in remoteMap then remoteMap[a] else []
  }

  /** `create_test_specs` raises for a builder that has remote machines listed and either no
      `DEPLOYMENT_STEPS` or no step classes at all. */
  predicate Fails(b: Builder, additional: seq<StepClass>, remotes: seq<RemoteSpec>)
  {
    remotes != [] && (b.defaults.None? || b.defaults.value.deploymentSteps + additional == [])
  }

  function FailureOf(b: Builder): Error
  {
    if b.defaults.None? then AttributeError("DEPLOYMENT_STEPS") else IndexError("pop from empty list")
  }

  /** The data of a test the constructor makes: the architecture defaults to the builder's. */
  predicate MadeAs(t: PackageTest, testName: string, b: Builder, arch: Option<Architecture>, p: Placement)
  {
    t == PackageTest(testName, b, arch.UnwrapOr(b.architecture), p, t.deployment)
  }

  /** `run_test_locally`: the package type, package and API key handed to
      `deb_rpm_tar_msi_test.run`, which it does only for DEB, RPM, TAR and MSI packages. */
  datatype LocalRun = LocalRun(packageType: PackageType, packagePath: Path, scalyrApiKey: string)

  function RunTestLocally(t: PackageTest, packagePath: Path, scalyrApiKey: string): (r: Option<LocalRun>)
    ensures r.Some? <==> t.builder.packageType in {DEB, RPM, TAR, MSI}
    ensures r.Some? ==> r.value.packageType == t.builder.packageType && r.value.packagePath == packagePath && r.value.scalyrApiKey == scalyrApiKey
  {
    match t.builder.packageType
    case DEB => Some(LocalRun(DEB, packagePath, scalyrApiKey))
    case RPM => Some(LocalRun(RPM, packagePath, scalyrApiKey))
    case TAR => Some(LocalRun(TAR, packagePath, scalyrApiKey))
    case MSI => Some(LocalRun(MSI, packagePath, scalyrApiKey))
    case _ => None
  }

  /** Container packages never run their tests locally. */
  lemma ContainerPackagesNotRunLocally(t: PackageTest, packagePath: Path, scalyrApiKey: string)
    requires t.builder.packageType in {DOCKER_JSON, DOCKER_SYSLOG, K8S}
    ensures RunTestLocally(t, packagePath, scalyrApiKey).None?
  {
  }

  /** The tests made so far for a builder's remote machines, in order: each with its data and
      the deployment named after it. */
  ghost predicate MadeFor(made: seq<PackageTest>, baseName: string, b: Builder, remotes: seq<RemoteSpec>)
  {
    && |made| <= |remotes|
    && forall j :: 0 <= j < |made| ==>
         MadeAs(made[j], baseName, b, None, PlacementFor(remotes[j])) && made[j].deployment.name == TestDeploymentName(made[j])
  }

  lemma MadeOneMore(made: seq<PackageTest>, t: PackageTest, baseName: string, b: Builder, remotes: seq<RemoteSpec>)
    requires MadeFor(made, baseName, b, remotes) && |made| < |remotes| && Distinct(made) && t !in made
    requires MadeAs(t, baseName, b, None, PlacementFor(remotes[|made|])) && t.deployment.name == TestDeploymentName(t)
    ensures MadeFor(made + [t], baseName, b, remotes) && Distinct(made + [t])
  {
    var l := made + [t];
    assert forall j :: 0 <= j < |made| ==> l[j] == made[j];
  }

  /** The tests `made` so far for `b`, one per remote machine in order, all registered. */
  ghost predicate MadeSoFar(made: seq<PackageTest>, baseName: string, b: Builder, remotes: seq<RemoteSpec>, before: Tables, now: Tables)
  {
    MadeFor(made, baseName, b, remotes) && Distinct(made) && now == RegisterTests(before, made)
  }

  lemma MadeSoFarGrows(made: seq<PackageTest>, t: PackageTest, baseName: string, b: Builder, remotes: seq<RemoteSpec>, before: Tables, now: Tables)
    requires MadeSoFar(made, baseName, b, remotes, before, now) && |made| < |remotes| && t !in made
    requires MadeAs(t, baseName, b, None, PlacementFor(remotes[|made|])) && t.deployment.name == TestDeploymentName(t)
    ensures MadeSoFar(made + [t], baseName, b, remotes, before, Register(now, t))
  {
    MadeOneMore(made, t, baseName, b, remotes);
    RegisterOneMore(before, made, t);
  }

  /** No builder before `builders[n]` raises. */
  predicate NoneFailsBefore(builders: seq<Builder>, additional: seq<StepClass>, remoteMap: map<Architecture, seq<RemoteSpec>>, n: int)
    requires n <= |builders|
  {
    forall j :: 0 <= j < n ==> !Fails(builders[j], additional, MachinesFor(remoteMap, builders[j].architecture))
  }

  /** The builder `builders[i]` raises and none before it does. */
  predicate FirstFailing(builders: seq<Builder>, additional: seq<StepClass>, remoteMap: map<Architecture, seq<RemoteSpec>>, i: int)
  {
    && 0 <= i < |builders| && Fails(builders[i], additional, MachinesFor(remoteMap, builders[i].architecture))
    && NoneFailsBefore(builders, additional, remoteMap, i)
  }

  /** `made[j]` holds a test per remote machine of `builders[j]`, each made for that builder. */
  ghost predicate MadeForEach(made: seq<seq<PackageTest>>, baseName: string, builders: seq<Builder>, remoteMap: map<Architecture, seq<RemoteSpec>>)
  {
    && |made| <= |builders|
    && forall j :: 0 <= j < |made| ==>
         && |made[j]| == |MachinesFor(remoteMap, builders[j].architecture)|
         && MadeFor(made[j], baseName, builders[j], MachinesFor(remoteMap, builders[j].architecture)) && Distinct(made[j])
  }

  lemma MadeForOneMore(made: seq<seq<PackageTest>>, tests: seq<PackageTest>, baseName: string, builders: seq<Builder>, remoteMap: map<Architecture, seq<RemoteSpec>>)
    requires MadeForEach(made, baseName, builders, remoteMap) && |made| < |builders|
    requires var remotes := MachinesFor(remoteMap, builders[|made|].architecture);
      |tests| == |remotes| && MadeFor(tests, baseName, builders[|made|], remotes) && Distinct(tests)
    ensures MadeForEach(made + [tests], baseName, builders, remoteMap)
  {
    var l := made + [tests];
    assert forall j :: 0 <= j < |made| ==> l[j] == made[j];
  }

  /** The class attributes `PackageTest.ALL_TESTS` and `PackageTest.PACKAGE_TESTS`. */
  class TestRegistry {
    var allTests: map<string, Entry>
    var packageTests: map<string, seq<PackageTest>>

    function Snapshot(): Tables
      reads this
    {
      Tables(allTests, packageTests)
    }

    constructor ()
      ensures allTests == map[] && packageTests == map[]
    {
      allTests, packageTests := map[], map[];
    }

    /** `PackageTest.__init__` (with the class of the test given by `placement`): it reads the
        builder's attributes, creates the deployment `package_test_<unique name>_deployment` and
        registers the test when its unique name is not taken. */
    method NewPackageTest(testName: string, builder: Builder, stepClasses: seq<StepClass>, architecture: Option<Architecture>,
                          placement: Placement, m: Machine, reg: EnvironmentDeployments.Registry) returns (r: Result<PackageTest>)
      modifies this, reg
      ensures r.Err? <==> builder.defaults.None? || ClassesFor(builder, stepClasses) == []
      ensures r.Err? ==> r.error == (if builder.defaults.None? && stepClasses != [] then AttributeError("BASE_DOCKER_IMAGE") else FailureOf(builder))
      ensures r.Err? ==> Snapshot() == old(Snapshot())
      ensures r.Ok? ==> var t := r.value;
        && MadeAs(t, testName, builder, architecture, placement) && fresh(t.deployment)
        && t.deployment.name == TestDeploymentName(t) && t.deployment.architecture == t.architecture
        && EnvironmentDeployments.Linked(t.deployment.steps, ClassesFor(builder, stepClasses), t.architecture, builder.defaults.value.baseDockerImage)
        && Snapshot() == Register(old(Snapshot()), t)
    {
      var arch := if architecture.Some? then architecture.value else builder.architecture;
      var classes := stepClasses;
      if classes == [] {
        if builder.defaults.None? {
          return Err(AttributeError("DEPLOYMENT_STEPS"));
        }
        classes := builder.defaults.value.deploymentSteps;
      }
      var name := NameOf(builder, testName, placement);
      if builder.defaults.None? {
        return Err(AttributeError("BASE_DOCKER_IMAGE"));
      }
      var d := EnvironmentDeployments.Deployment.Create("package_test_" + name + "_deployment", classes, arch,
                                                        builder.defaults.value.baseDockerImage, m, reg);
      if d.Err? {
        return Err(d.error);
      }
      var t := PackageTest(testName, builder, arch, placement, d.value);
      var b := builder.name;
      if name !in allTests {
        allTests := allTests[name := Registered(t)];
        packageTests := packageTests[b := BuildAndTestSpecs.TestsOf(packageTests, b) + [t]];
      }
      r := Ok(t);
    }

    /** The first loop of `create_test_specs` for one builder: a test per remote machine listed for
        its architecture, each with a new deployment and registered by its constructor (so, by
        `RegisterAppendsFresh`, `PACKAGE_TESTS` gains the tests first to take their unique names). */
    method MakeTests(baseName: string, builder: Builder, additional: seq<StepClass>, remotes: seq<RemoteSpec>,
                     m: Machine, reg: EnvironmentDeployments.Registry) returns (made: seq<PackageTest>, error: Option<Error>)
      modifies this, reg
      ensures error.Some? <==> Fails(builder, additional, remotes)
      ensures error.Some? ==> error.value == FailureOf(builder) && Snapshot() == old(Snapshot())
      ensures error.None? ==>
        && |made| == |remotes| && MadeFor(made, baseName, builder, remotes) && Distinct(made)
        && Snapshot() == RegisterTests(old(Snapshot()), made)
    {
      made := [];
      var i := 0;
      while i < |remotes|
        invariant 0 <= i <= |remotes| && |made| == i && (i > 0 ==> !Fails(builder, additional, remotes))
        invariant MadeSoFar(made, baseName, builder, remotes, old(Snapshot()), Snapshot())
      {
        if builder.defaults.None? {
          return [], Some(AttributeError("DEPLOYMENT_STEPS"));
        }
        ghost var now := Snapshot();
        var t := NewPackageTest(baseName, builder, builder.defaults.value.deploymentSteps + additional, None,
                                PlacementFor(remotes[i]), m, reg);
        if t.Err? {
          return [], Some(t.error);
        }
        assert t.value !in made by {
          assert forall j :: 0 <= j < i ==> made[j].deployment != t.value.deployment;
        }
        MadeSoFarGrows(made, t.value, baseName, builder, remotes, old(Snapshot()), now);
        made := made + [t.value];
        i := i + 1;
      }
      error := None;
    }

    /** The second loop of `create_test_specs`, over a copy of the list. */
    method FilterTests(made: seq<PackageTest>) returns (list: seq<PackageTest>)
      modifies this
      ensures (list, allTests) == FilterAsWritten(made, made, old(allTests), UniqueName, Entered)
      ensures packageTests == old(packageTests)
    {
      list := made;
      var k := 0;
      while k < |made|
        invariant 0 <= k <= |made| && packageTests == old(packageTests)
        invariant (list, allTests) == FilterAsWritten(made[..k], made, old(allTests), UniqueName, Entered)
      {
        var x := made[k];
        assert made[..k + 1][..k] == made[..k];
        var n := UniqueName(x);
        if n in allTests {
          list := RemoveFirst(list, x);
        } else {
          allTests := allTests[n := Registered(x)];
        }
        k := k + 1;
      }
      assert made[..k] == made;
    }

    /** The body of the loop of `create_test_specs` for one builder: its tests, the filter, which as
        written finds every test already registered and empties the list, and the list filed in
        `ALL_TESTS` under the builder's name. */
    method AddBuilderTests(baseName: string, builder: Builder, additional: seq<StepClass>, remotes: seq<RemoteSpec>,
                           m: Machine, reg: EnvironmentDeployments.Registry) returns (made: seq<PackageTest>, error: Option<Error>)
      modifies this, reg
      ensures error.Some? <==> Fails(builder, additional, remotes)
      ensures error.Some? ==> error.value == FailureOf(builder) && Snapshot() == old(Snapshot())
      ensures error.None? ==>
        && |made| == |remotes| && MadeFor(made, baseName, builder, remotes) && Distinct(made)
        && builder.name in allTests && allTests[builder.name] == BuilderTests([])
        && (forall k :: k in old(allTests) ==> k in allTests && (k != builder.name ==> allTests[k] == old(allTests)[k]))
        && BuildAndTestSpecs.TestsOf(packageTests, builder.name)
             == BuildAndTestSpecs.TestsOf(old(packageTests), builder.name) + FirstTakers(made, UniqueName, old(allTests).Keys)
        && (forall k :: k != builder.name ==> BuildAndTestSpecs.TestsOf(packageTests, k) == BuildAndTestSpecs.TestsOf(old(packageTests), k))
        && Snapshot() == AfterBuilder(old(Snapshot()), builder, made)
    {
      made, error := MakeTests(baseName, builder, additional, remotes, m, reg);
      if error.Some? {
        return;
      }
      var b := builder.name;
      ghost var registered := Snapshot();
      RegisterAppendsFresh(old(Snapshot()), made, b);
      forall j | 0 <= j < |made| ensures UniqueName(made[j]) in allTests {
        KeysOfContain(made, UniqueName, j);
      }
      var list := FilterTests(made);
      AsWrittenFilterEmpties(made, registered.allTests, UniqueName, Entered);
      allTests := allTests[b := BuilderTests(list)];
    }

    /** `create_test_specs` (`None` for the additional steps or the remote machines is given as the
        empty list or map): the builders in order, stopping at the first that raises. `made` holds the
        tests made for each builder that did not raise. As written, every builder's name ends up
        filed in `ALL_TESTS` with an empty list. */
    method CreateTestSpecs(baseName: string, builders: seq<Builder>, additional: seq<StepClass>,
                           remoteMap: map<Architecture, seq<RemoteSpec>>, m: Machine, reg: EnvironmentDeployments.Registry)
      returns (error: Option<Error>, ghost made: seq<seq<PackageTest>>)
      modifies this, reg
      ensures error.None? <==> NoneFailsBefore(builders, additional, remoteMap, |builders|)
      ensures error.Some? ==> exists i :: FirstFailing(builders, additional, remoteMap, i) && error.value == FailureOf(builders[i])
      ensures |made| <= |builders| && (error.None? ==> |made| == |builders|)
      ensures error.Some? ==> |made| < |builders| && error.value == FailureOf(builders[|made|])
      ensures MadeForEach(made, baseName, builders, remoteMap)
      ensures Snapshot() == AfterBuilders(old(Snapshot()), builders[..|made|], made)
      ensures error.None? ==> forall i :: 0 <= i < |builders| ==> builders[i].name in allTests && allTests[builders[i].name] == BuilderTests([])
      ensures forall k :: k in old(allTests) ==> k in allTests
    {
      made := [];
      var i := 0;
      while i < |builders|
        invariant 0 <= i <= |builders| && |made| == i
        invariant NoneFailsBefore(builders, additional, remoteMap, i)
        invariant MadeForEach(made, baseName, builders, remoteMap)
        invariant Snapshot() == AfterBuilders(old(Snapshot()), builders[..i], made)
      {
        var builder := builders[i];
        var tests, e := AddBuilderTests(baseName, builder, additional, MachinesFor(remoteMap, builder.architecture), m, reg);
        if e.Some? {
          assert FirstFailing(builders, additional, remoteMap, i);
          return e, made;
        }
        AfterOneMoreBuilder(old(Snapshot()), builders, made, tests);
        MadeForOneMore(made, tests, baseName, builders, remoteMap);
        made := made + [tests];
        i := i + 1;
      }
      assert builders[..i] == builders;
      AfterBuildersFileEachName(old(Snapshot()), builders, made);
      error := None;
    }
  }
}
