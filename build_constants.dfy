/** agent_build/tools/constants.py: the architectures, Docker platforms and package types of the
    builder generation, which adds a `noarch` architecture. */
module BuildConstants {
  import opened Wrappers

  datatype DockerPlatform = AMD64 | ARM64Platform

  function PlatformValue(p: DockerPlatform): string
  {
    match p
    case AMD64 => "linux/amd64"
    case ARM64Platform => "linux/arm64"
  }

  datatype Architecture = X86_64 | ARM64 | NOARCH

  function ArchValue(a: Architecture): string
  {
    match a
    case X86_64 => "x86_64"
    case ARM64 => "arm64"
    case NOARCH => "noarch"
  }

  /** `Architecture(s)`: lookup by value; an unknown value raises `ValueError`. */
  function ArchitectureOf(s: string): (r: Result<Architecture>)
    ensures r.Ok? ==> ArchValue(r.value) == s
    ensures r.Err? ==> forall a: Architecture :: ArchValue(a) != s
  {
    if s == "x86_64" then Ok(X86_64)
    else if s == "arm64" then Ok(ARM64)
    else if s == "noarch" then Ok(NOARCH)
    else Err(ValueError("'" + s + "' is not a valid Architecture"))
  }

  lemma ArchitectureOfValue(a: Architecture)
    ensures ArchitectureOf(ArchValue(a)) == Ok(a)
  {
  }

  /** `as_docker_platform`, total over all three architectures; `noarch` builds on amd64. */
  function AsDockerPlatform(a: Architecture): (p: DockerPlatform)
    ensures PlatformValue(p) == (if a == ARM64 then "linux/arm64" else "linux/amd64")
    ensures p == AMD64 <==> a != ARM64
  {
    match a
    case X86_64 => AMD64
    case ARM64 => ARM64Platform
    case NOARCH => AMD64
  }

  datatype PackageType = DEB | RPM | TAR | DOCKER_JSON | DOCKER_SYSLOG | K8S | MSI

  function PackageTypeValue(t: PackageType): string
  {
    match t
    case DEB => "deb"
    case RPM => "rpm"
    case TAR => "tar"
    case DOCKER_JSON => "docker-json"
    case DOCKER_SYSLOG => "docker-syslog"
    case K8S => "k8s"
    case MSI => "msi"
  }
}
