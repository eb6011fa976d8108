/** scalyr_agent/monitor_utils/docker.py: checking and formatting the Docker API socket path.
    The platform name (`platform.system()`) and the result of `os.stat` are inputs. */
module DockerSocket {
  import opened Wrappers
  import opened Strings

  /** What `os.stat(path)` gave: an exception, or a mode that is or is not a socket. */
  datatype StatResult = StatFailed | Stat(isSocket: bool)

  const SocketErrorTail: string :=
    "' specified by the 'api_socket' configuration option does not exist or is not a socket.\n\tPlease make sure you have mapped the docker socket from the host to this container using the -v parameter.\n\tNote: Due to problems Docker has mapping symbolic links, you should specify the final file and not a path that contains a symbolic link, e.g. map /run/docker.sock rather than /var/run/docker.sock as on many unices /var/run is a symbolic link to the /run directory."

  function SocketError(path: string): Error
  {
    GenericException("The file '" + path + SocketErrorTail)
  }

  /** `validate_docker_socket` as written: the `S_ISSOCK` test is inverted, so a socket raises
      (and the exception is replaced by the generic one) while an existing non-socket passes. */
  function ValidateDockerSocket(system: string, path: string, st: StatResult): (r: Result<Option<string>>)
    ensures system == "Windows" ==> r == Ok(Some(path))
    ensures system != "Windows" ==> (r.Ok? <==> st == Stat(false))
    ensures system != "Windows" && r.Ok? ==> r.value == None
    ensures r.Err? ==> r.error == SocketError(path)
  {
    if system == "Windows" then Ok(Some(path))
    else match st
      case StatFailed => Err(SocketError(path))
      case Stat(isSocket) => if isSocket then Err(SocketError(path)) else Ok(None)
  }

  /** The validation with the `S_ISSOCK` test the docstring describes: it passes exactly for an existing socket. */
  function ValidateDockerSocketFixed(system: string, path: string, st: StatResult): (r: Result<Option<string>>)
    ensures system == "Windows" ==> r == Ok(Some(path))
    ensures system != "Windows" ==> (r.Ok? <==> st == Stat(true))
    ensures system != "Windows" && r.Ok? ==> r.value == None
    ensures r.Err? ==> r.error == SocketError(path)
  {
    if system == "Windows" then Ok(Some(path))
    else match st
      case StatFailed => Err(SocketError(path))
      case Stat(isSocket) => if !isSocket then Err(SocketError(path)) else Ok(None)
  }

  /** The discrepancy: off Windows, every real socket is rejected as written and accepted once fixed,
      and every existing non-socket the other way round. */
  lemma ValidateRejectsRealSocket(system: string, path: string)
    requires system != "Windows"
    ensures ValidateDockerSocket(system, path, Stat(true)) == Err(SocketError(path))
    ensures ValidateDockerSocketFixed(system, path, Stat(true)) == Ok(None)
    ensures ValidateDockerSocket(system, path, Stat(false)) == Ok(None)
    ensures ValidateDockerSocketFixed(system, path, Stat(false)).Err?
  {
  }

  const NpipePrefix: string := "npipe:\\\\"
  const UnixPrefix: string := "unix:/"

  /** `get_full_api_socket_path_if_supported`: a named pipe URL on Windows, a unix socket URL elsewhere. */
  function FullApiSocketPath(system: string, path: string): (r: string)
    ensures system == "Windows" ==> StartsWith(r, NpipePrefix) && |NpipePrefix| == 8 && r[6] == '\\' && r[7] == '\\'
    ensures system != "Windows" ==> StartsWith(r, UnixPrefix)
    ensures EndsWith(r, path)
  {
    var p := if system == "Windows" then NpipePrefix else UnixPrefix;
    assert (p + path)[..|p|] == p && (p + path)[|p|..] == path;
    p + path
  }

  /** The socket path read back from the URL. */
  function SocketPathOf(url: string): Option<string>
  {
    if StartsWith(url, NpipePrefix) then Some(url[|NpipePrefix|..])
    else if StartsWith(url, UnixPrefix) then Some(url[|UnixPrefix|..])
    else None
  }

  /** The URL loses nothing: the path is recovered from it, and the prefix tells the platform apart. */
  lemma FullApiSocketPathRoundTrip(system: string, path: string)
    ensures SocketPathOf(FullApiSocketPath(system, path)) == Some(path)
    ensures StartsWith(FullApiSocketPath(system, path), NpipePrefix) <==> system == "Windows"
  {
    var r := FullApiSocketPath(system, path);
    if system != "Windows" {
      assert r[0] == 'u' && NpipePrefix[0] == 'n';
      if |NpipePrefix| <= |r| { assert r[..|NpipePrefix|][0] == r[0]; }
    }
  }
}
