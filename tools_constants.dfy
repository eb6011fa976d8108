/** agent_tools/constants.py: the architectures, Docker platforms and package types of the
    deployment tooling. */
module ToolsConstants {
  import opened Wrappers

  datatype DockerPlatform = AMD64 | ARM64Platform

  function PlatformValue(p: DockerPlatform): string
  {
    match p
    case AMD64 => "amd64"
    case ARM64Platform => "arm64"
  }

  datatype Architecture = X86_64 | ARM64

  /** `Architecture.value`: the text embedded in step and deployment names. */
  function ArchValue(a: Architecture): string
  {
    match a
    case X86_64 => "x86_64"
    case ARM64 => "arm64"
  }

  /** `Architecture(s)`: the enum lookup by value, which raises `ValueError` for an unknown value. */
  function ArchitectureOf(s: string): (r: Result<Architecture>)
    ensures r.Ok? ==> ArchValue(r.value) == s
    ensures r.Err? ==> forall a: Architecture :: ArchValue(a) != s
  {
    if s == "x86_64" then Ok(X86_64)
    else if s == "arm64" then Ok(ARM64)
    else Err(ValueError("'" + s + "' is not a valid Architecture"))
  }

  lemma ArchitectureOfValue(a: Architecture)
    ensures ArchitectureOf(ArchValue(a)) == Ok(a)
  {
  }

  /** `as_docker_platform`: x86_64 runs on amd64 and arm64 on arm64. */
  function AsDockerPlatform(a: Architecture): (p: DockerPlatform)
    ensures PlatformValue(p) == (if a == X86_64 then "amd64" else ArchValue(a))
  {
    match a
    case X86_64 => AMD64
    case ARM64 => ARM64Platform
  }

  /** The map is one-to-one: the two architectures never share a platform. */
  lemma AsDockerPlatformInjective(a: Architecture, b: Architecture)
    requires AsDockerPlatform(a) == AsDockerPlatform(b)
    ensures a == b
  {
  }

  datatype PackageType = DEB | RPM | TAR | DOCKER_JSON | DOCKER_SYSLOG | K8S | MSI

  function PackageTypeValue(t: PackageType): string
  {
    match t
    case DEB => "deb"
    case RPM => "rpm"
    case TAR => "tar"
    case DOCKER_JSON => "docker-json"
    case DOCKER_SYSLOG => "docker-syslog"
    case K8S => "k8s"
    case MSI => "msi"
  }

  /** The seven package type values are distinct strings. */
  lemma PackageTypeValuesDistinct(s: PackageType, t: PackageType)
    requires PackageTypeValue(s) == PackageTypeValue(t)
    ensures s == t
  {
  }
}
