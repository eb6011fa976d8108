/** agent_build/package_builders.py: the string logic of the package builders. */
module PackageBuilders {
  import opened Wrappers
  import opened Strings
  import opened ToolsConstants

  // ---------------------------------------------------------------------------------------------
  // The builder classes and their names

  /** The builder classes whose `PACKAGE_TYPE` is a `PackageType`. */
  datatype BuilderKind = DebBuilder | RpmBuilder | TarballBuilder | MsiBuilder

  /** `PACKAGE_TYPE` of each class. */
  function KindPackageType(k: BuilderKind): PackageType
  {
    match k
    case DebBuilder => DEB
    case RpmBuilder => RPM
    case TarballBuilder => TAR
    case MsiBuilder => MSI
  }

  /** `PACKAGE_FILENAME_ARCHITECTURE_NAMES` of each class; the MSI builder keeps the empty default. */
  function ArchNames(k: BuilderKind): map<Architecture, string>
  {
    match k
    case DebBuilder => map[X86_64 := "amd64", ARM64 := "arm64"]
    case RpmBuilder => map[X86_64 := "x86_64", ARM64 := "aarch64"]
    case TarballBuilder => map[X86_64 := ArchValue(X86_64), ARM64 := ArchValue(ARM64)]
    case MsiBuilder => map[]
  }

  /** `RESULT_PACKAGE_FILENAME_GLOB` of each class, written around its `{arch}` field. */
  function GlobFormat(k: BuilderKind): string
  {
    match k
    case DebBuilder => "scalyr-agent-2_*.*.*_" + "{arch}" + ".deb"
    case RpmBuilder => "scalyr-agent-2-*.*.*-1." + "{arch}" + ".rpm"
    case TarballBuilder => "scalyr-agent-*.*.*_" + "{arch}" + ".tar.gz"
    case MsiBuilder => "ScalyrAgentInstaller-*.*.*.msi"
  }

  /** `PackageBuilder.name`: the package type's value and the architecture's value. */
  function BuilderName(t: PackageType, arch: Architecture): string
  {
    PackageTypeValue(t) + "_" + ArchValue(arch)
  }

  /** Builders are registered under their names, and no two package types or architectures share
      one: the name gives back both. */
  lemma BuilderNameInjective(t1: PackageType, a1: Architecture, t2: PackageType, a2: Architecture)
    requires BuilderName(t1, a1) == BuilderName(t2, a2)
    ensures t1 == t2 && a1 == a2
  {
    var n := BuilderName(t1, a1);
    var v1, v2 := ArchValue(a1), ArchValue(a2);
    assert n == PackageTypeValue(t1) + ("_" + v1) && n == PackageTypeValue(t2) + ("_" + v2);
    assert n[|n| - 3] == v1[|v1| - 3] && n[|n| - 3] == v2[|v2| - 3];
    assert a1 == a2;
    SuffixCancels(PackageTypeValue(t1), PackageTypeValue(t2), "_" + v1);
    PackageTypeValuesDistinct(t1, t2);
  }

  lemma SuffixCancels(x: string, y: string, s: string)
    requires x + s == y + s
    ensures x == y
  {
    assert |x| == |y|;
    assert x == (x + s)[..|x|] && y == (y + s)[..|y|];
  }

  lemma PrefixCancels(s: string, x: string, y: string)
    requires s + x == s + y
    ensures x == y
  {
    assert x == (s + x)[|s|..] && y == (s + y)[|s|..];
  }

  /** The Debian builder's glob names the architecture as Debian does. */
  lemma DebGlob(arch: Architecture)
    ensures FilenameGlob(GlobFormat(DebBuilder), ArchNames(DebBuilder), arch)
      == "scalyr-agent-2_*.*.*_" + (if arch == X86_64 then "amd64" else "arm64") + ".deb"
  {
    FormatOneField("scalyr-agent-2_*.*.*_", ".deb", ArchNames(DebBuilder)[arch]);
  }

  /** The RPM builder's glob names the architecture as RPM does. */
  lemma RpmGlob(arch: Architecture)
    ensures FilenameGlob(GlobFormat(RpmBuilder), ArchNames(RpmBuilder), arch)
      == "scalyr-agent-2-*.*.*-1." + (if arch == X86_64 then "x86_64" else "aarch64") + ".rpm"
  {
    FormatOneField("scalyr-agent-2-*.*.*-1.", ".rpm", ArchNames(RpmBuilder)[arch]);
  }

  /** The tarball builder's glob carries the architecture's own value. */
  lemma TarballGlob(arch: Architecture)
    ensures FilenameGlob(GlobFormat(TarballBuilder), ArchNames(TarballBuilder), arch)
      == "scalyr-agent-*.*.*_" + ArchValue(arch) + ".tar.gz"
  {
    FormatOneField("scalyr-agent-*.*.*_", ".tar.gz", ArchNames(TarballBuilder)[arch]);
  }

  /** The MSI builder maps no architecture, and its glob has no field: it is the same for all. */
  lemma MsiGlob(arch: Architecture)
    ensures FilenameGlob(GlobFormat(MsiBuilder), ArchNames(MsiBuilder), arch) == GlobFormat(MsiBuilder)
  {
    NoFieldUnchanged(GlobFormat(MsiBuilder), "{arch}", "");
  }

  // ---------------------------------------------------------------------------------------------
  // Versions and output names

  /** `MsiWindowsPackageBuilder._package_version`: Windows wants four dotted numbers, so a version
      of five dotted parts loses its fourth; any other version is kept. */
  function MsiVersion(version: string): (r: string)
    ensures var n := |Split(version, '.')|; |Split(r, '.')| == if n == 5 then 4 else n
    ensures |Split(version, '.')| != 5 ==> r == version
  {
    var parts := Split(version, '.');
    if |parts| == 5 then
      var kept := parts[..3] + parts[4..];
      assert forall k :: 0 <= k < |kept| ==> kept[k] == parts[if k < 3 then k else k + 1];
      SplitJoin(kept, '.');
      Join(kept, '.')
    else version
  }

  /** Of five parts the fourth is the one dropped, and the others keep their order. */
  lemma MsiVersionDropsFourth(version: string)
    requires |Split(version, '.')| == 5
    ensures var parts := Split(version, '.');
      Split(MsiVersion(version), '.') == [parts[0], parts[1], parts[2], parts[4]]
  {
    var parts := Split(version, '.');
    var kept := parts[..3] + parts[4..];
    assert forall k :: 0 <= k < |kept| ==> kept[k] == parts[if k < 3 then k else k + 1];
    SplitJoin(kept, '.');
    assert kept == [parts[0], parts[1], parts[2], parts[4]];
  }

  /** A rewritten version is one Windows accepts and is not rewritten again. */
  lemma MsiVersionIdempotent(version: string)
    ensures MsiVersion(MsiVersion(version)) == MsiVersion(version)
  {
  }

  /** The version of the file names: the package version, then `.variant` when there is one. */
  function VersionString(version: string, variant: Option<string>): string
  {
    if variant.None? then version else version + "." + variant.value
  }

  /** The tarball `_build`: the file name carries the version string unless the builder was asked
      for a file name without one, and always ends with the architecture. */
  function TarballName(version: string, variant: Option<string>, arch: Architecture, noVersioned: bool): (r: string)
    ensures EndsWith(r, "_" + ArchValue(arch) + ".tar.gz")
    ensures noVersioned <==> !StartsWith(r, "scalyr-agent-")
  {
    var tail := "_" + ArchValue(arch) + ".tar.gz";
    if noVersioned then
      var r := "scalyr-agent" + tail;
      assert r[|r| - |tail|..] == tail && r[12] == '_';
      r
    else
      var r := "scalyr-agent-" + VersionString(version, variant) + tail;
      assert r == "scalyr-agent-" + (VersionString(version, variant) + tail);
      assert r[|r| - |tail|..] == tail && r[..13] == "scalyr-agent-";
      r
  }

  /** A versioned tarball name gives back its version string and its architecture. */
  lemma TarballNameInjective(v1: string, x1: Option<string>, a1: Architecture, v2: string, x2: Option<string>, a2: Architecture)
    requires TarballName(v1, x1, a1, false) == TarballName(v2, x2, a2, false)
    ensures VersionString(v1, x1) == VersionString(v2, x2) && a1 == a2
  {
    var n := TarballName(v1, x1, a1, false);
    var s1, s2 := "_" + ArchValue(a1) + ".tar.gz", "_" + ArchValue(a2) + ".tar.gz";
    var w1, w2 := VersionString(v1, x1), VersionString(v2, x2);
    assert n == "scalyr-agent-" + w1 + s1 && n == "scalyr-agent-" + w2 + s2;
    assert n[|n| - 10] == s1[|s1| - 10] && n[|n| - 10] == s2[|s2| - 10];
    assert a1 == a2;
    SuffixCancels("scalyr-agent-" + w1, "scalyr-agent-" + w2, s1);
    PrefixCancels("scalyr-agent-", w1, w2);
  }

  /** The container `_build`: `scalyr-agent-<type>`, then `-<version string>` unless the builder
      was asked for a file name without one. `PACKAGE_TYPE` is a plain string in these classes. */
  function ContainerOutputName(packageType: string, version: string, variant: Option<string>, noVersioned: bool): (r: string)
    ensures StartsWith(r, "scalyr-agent-" + packageType)
    ensures noVersioned ==> |r| == |"scalyr-agent-" + packageType|
    ensures !noVersioned ==> |r| > |"scalyr-agent-" + packageType|
  {
    var builderName := "scalyr-agent-" + packageType;
    if noVersioned then builderName
    else
      var r := builderName + "-" + VersionString(version, variant);
      assert r[..|builderName|] == builderName;
      r
  }

  /** Versioned container names of one package type differ for different version strings. */
  lemma ContainerOutputNameInjective(t: string, v1: string, x1: Option<string>, v2: string, x2: Option<string>)
    requires ContainerOutputName(t, v1, x1, false) == ContainerOutputName(t, v2, x2, false)
    ensures VersionString(v1, x1) == VersionString(v2, x2)
  {
    var w1, w2 := VersionString(v1, x1), VersionString(v2, x2);
    assert ("scalyr-agent-" + t + "-") + w1 == ("scalyr-agent-" + t + "-") + w2;
    PrefixCancels("scalyr-agent-" + t + "-", w1, w2);
  }

  /** The MSI installer file: `ScalyrAgentInstaller-<version>.msi` with the rewritten version. */
  function InstallerName(version: string): (r: string)
    ensures StartsWith(r, "ScalyrAgentInstaller-") && EndsWith(r, ".msi")
  {
    var r := "ScalyrAgentInstaller-" + MsiVersion(version) + ".msi";
    assert r[..21] == "ScalyrAgentInstaller-" && r[|r| - 4..] == ".msi";
    r
  }

  // ---------------------------------------------------------------------------------------------
  // Finding a package by its glob

  /** `Path.glob` of one file name against a pattern whose only wildcard is `*`, which matches
      any run of characters. */
  function GlobMatch(pattern: string, name: string): bool
    decreases |pattern| + |name|
  {
    if pattern == [] then name == []
    else if pattern[0] == '*' then GlobMatch(pattern[1..], name) || (name != [] && GlobMatch(pattern, name[1..]))
    else name != [] && name[0] == pattern[0] && GlobMatch(pattern[1..], name[1..])
  }

  /** A literal part of a pattern matches itself and nothing else. */
  lemma {:induction false} LiteralMatches(lit: string, pattern: string, name: string)
    requires '*' !in lit
    ensures GlobMatch(lit + pattern, lit + name) == GlobMatch(pattern, name)
    decreases |lit|
  {
    if lit != [] {
      assert (lit + pattern)[0] == lit[0] && (lit + pattern)[1..] == lit[1..] + pattern;
      assert (lit + name)[0] == lit[0] && (lit + name)[1..] == lit[1..] + name;
      LiteralMatches(lit[1..], pattern, name);
    } else {
      assert lit + pattern == pattern && lit + name == name;
    }
  }

  /** A `*` takes any word in front of what the rest of the pattern matches. */
  lemma {:induction false} StarMatches(word: string, pattern: string, name: string)
    requires GlobMatch(pattern, name)
    ensures GlobMatch("*" + pattern, word + name)
    decreases |word|
  {
    assert ("*" + pattern)[0] == '*' && ("*" + pattern)[1..] == pattern;
    if word != [] {
      StarMatches(word[1..], pattern, name);
      assert (word + name)[1..] == word[1..] + name;
    } else {
      assert word + name == name;
    }
  }

  /** A pattern of three `*` separated by dots between two literal parts finds every name that
      has those parts around three dot-separated words. */
  lemma ThreeStarsMatch(head: string, tail: string, a: string, b: string, c: string, pattern: string, name: string)
    requires '*' !in head && '*' !in tail
    requires pattern == head + ("*" + ("." + ("*" + ("." + ("*" + tail)))))
    requires name == head + (a + ("." + (b + ("." + (c + tail)))))
    ensures GlobMatch(pattern, name)
  {
    LiteralMatches(tail, [], []);
    assert tail + [] == tail;
    StarMatches(c, tail, tail);
    LiteralMatches(".", "*" + tail, c + tail);
    StarMatches(b, "." + ("*" + tail), "." + (c + tail));
    LiteralMatches(".", "*" + ("." + ("*" + tail)), b + ("." + (c + tail)));
    StarMatches(a, "." + ("*" + ("." + ("*" + tail))), "." + (b + ("." + (c + tail))));
    LiteralMatches(head, "*" + ("." + ("*" + ("." + ("*" + tail)))), a + ("." + (b + ("." + (c + tail)))));
  }

  /** The name of a versioned tarball is found by the tarball builder's glob, whatever the
      variant, when the version has three dotted parts or more. */
  lemma TarballFoundByGlob(major: string, minor: string, patch: string, variant: Option<string>, arch: Architecture)
    ensures GlobMatch(FilenameGlob(GlobFormat(TarballBuilder), ArchNames(TarballBuilder), arch),
                      TarballName(major + "." + minor + "." + patch, variant, arch, false))
  {
    var tail := "_" + ArchValue(arch) + ".tar.gz";
    var last := if variant.None? then patch else patch + "." + variant.value;
    TarballPatternNested(arch);
    TarballNameNested(major, minor, patch, variant, arch);
    TarballTailLiteral(arch);
    ThreeStarsMatch("scalyr-agent-", tail, major, minor, last,
      FilenameGlob(GlobFormat(TarballBuilder), ArchNames(TarballBuilder), arch),
      TarballName(major + "." + minor + "." + patch, variant, arch, false));
  }

  lemma TarballTailLiteral(arch: Architecture)
    ensures '*' !in "scalyr-agent-" && '*' !in "_" + ArchValue(arch) + ".tar.gz"
  {
    var tail := "_" + ArchValue(arch) + ".tar.gz";
    assert forall i :: 0 <= i < |tail| ==> tail[i] != '*';
  }

  lemma TarballPatternNested(arch: Architecture)
    ensures FilenameGlob(GlobFormat(TarballBuilder), ArchNames(TarballBuilder), arch)
      == "scalyr-agent-" + ("*" + ("." + ("*" + ("." + ("*" + ("_" + ArchValue(arch) + ".tar.gz"))))))
  {
    TarballGlob(arch);
  }

  lemma TarballNameNested(major: string, minor: string, patch: string, variant: Option<string>, arch: Architecture)
    ensures var last := if variant.None? then patch else patch + "." + variant.value;
      TarballName(major + "." + minor + "." + patch, variant, arch, false)
      == "scalyr-agent-" + (major + ("." + (minor + ("." + (last + ("_" + ArchValue(arch) + ".tar.gz"))))))
  {
    var last := if variant.None? then patch else patch + "." + variant.value;
    var tail := "_" + ArchValue(arch) + ".tar.gz";
    var vs := VersionString(major + "." + minor + "." + patch, variant);
    assert vs == major + "." + minor + "." + last by {
      if variant.Some? {
        AppendTwice(major + "." + minor + "." + patch, ".", variant.value);
        AppendTwice(major + "." + minor + ".", patch, "." + variant.value);
      }
    }
    assert TarballName(major + "." + minor + "." + patch, variant, arch, false) == "scalyr-agent-" + vs + tail;
    Regrouped("scalyr-agent-", major, minor, last, tail, ".");
  }

  lemma AppendTwice(a: string, b: string, c: string)
    ensures a + b + c == a + (b + c)
  {
  }

  lemma Regrouped(h: string, a: string, b: string, c: string, t: string, d: string)
    ensures h + (a + d + b + d + c) + t == h + (a + (d + (b + (d + (c + t)))))
  {
  }

  /** `format(arch=...)` of a filename-glob format: the package's own name for the architecture,
      or the empty string when the builder has none. */
  function FilenameGlob(format: string, archNames: map<Architecture, string>, arch: Architecture): string
  {
    ReplaceAll(format, "{arch}", if arch in archNames then archNames[arch] else "")
  }

  /** A format with one `{arch}` field and no other braces becomes its text with the value in place
      of the field. */
  lemma FormatOneField(prefix: string, suffix: string, v: string)
    requires '{' !in prefix && '{' !in suffix
    ensures ReplaceAll(prefix + "{arch}" + suffix, "{arch}", v) == prefix + v + suffix
  {
    FieldFilled(prefix, "{arch}", suffix, v);
  }

  /** The same for any field marker whose first character occurs nowhere else. */
  lemma {:induction false} FieldFilled(prefix: string, pat: string, suffix: string, v: string)
    requires |pat| > 0 && pat[0] !in prefix && pat[0] !in suffix
    ensures ReplaceAll(prefix + pat + suffix, pat, v) == prefix + v + suffix
    decreases |prefix|
  {
    if prefix == [] {
      var s := pat + suffix;
      assert prefix + pat + suffix == s && s[..|pat|] == pat && s[|pat|..] == suffix;
      NoFieldUnchanged(suffix, pat, v);
    } else {
      var c, t := prefix[0], prefix[1..];
      FieldFilled(t, pat, suffix, v);
      SplitHead(prefix, pat, suffix);
      OtherCharKept(c, t + pat + suffix, pat, v);
      SplitHead(prefix, v, suffix);
    }
  }

  /** A character other than the marker's first is copied and the scan goes on after it. */
  lemma OtherCharKept(c: char, rest: string, pat: string, v: string)
    requires |pat| > 0 && c != pat[0] && |rest| >= |pat|
    ensures ReplaceAll([c] + rest, pat, v) == [c] + ReplaceAll(rest, pat, v)
  {
    var s := [c] + rest;
    assert s[..|pat|][0] == c;
    assert s[1..] == rest;
  }

  lemma SplitHead(prefix: string, x: string, y: string)
    requires |prefix| > 0
    ensures prefix + x + y == [prefix[0]] + (prefix[1..] + x + y)
  {
    assert prefix == [prefix[0]] + prefix[1..];
  }

  /** A text without the marker's first character is left as it is. */
  lemma NoFieldUnchanged(s: string, pat: string, v: string)
    requires |pat| > 0 && pat[0] !in s
    ensures ReplaceAll(s, pat, v) == s
  {
    forall i | 0 <= i <= |s| ensures !OccursAt(s, pat, i) {
      if i + |pat| <= |s| {
        assert s[i..i + |pat|][0] == s[i] != pat[0];
      }
    }
  }
}
