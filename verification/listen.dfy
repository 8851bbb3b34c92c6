/** The serving branch of `main`: classify `server.listen` and, for a unix socket,
    clear a stale socket file before the server binds. The outcome of `os.unlink` is
    an input. */
module Listen {
  import opened Outcomes
  import PyText

  const HttpScheme: string := "http://"
  const UnixScheme: string := "unix://"

  /** `errno.ENOENT` on Linux. */
  const ENOENT: int := 2

  /** How to serve: TCP on the address (host and port are split out by `parse.host`,
      which is not part of this model), or a unix socket at `path`. */
  datatype ListenAddress = Tcp(address: string) | UnixSocket(path: string)

  /** The first "unix://" in `listen` starts at index `k`. */
  predicate FirstUnixSchemeAt(listen: string, k: nat) {
    PyText.OccursAt(listen, UnixScheme, k) && forall j :: 0 <= j < k ==> !PyText.OccursAt(listen, UnixScheme, j)
  }

  predicate HasNoUnixScheme(listen: string) {
    forall j :: 0 <= j <= |listen| ==> !PyText.OccursAt(listen, UnixScheme, j)
  }

  /** A value starting with "http://" is served over TCP; any other value is a socket
      path: the text after the first "unix://", or "" when there is none. */
  function Classify(listen: string): (a: ListenAddress)
    ensures a.Tcp? <==> PyText.StartsWith(listen, HttpScheme)
    ensures a.Tcp? ==> a.address == listen
    ensures a.UnixSocket? ==>
      || (exists k: nat :: FirstUnixSchemeAt(listen, k) && a.path == listen[k + |UnixScheme|..])
      || (HasNoUnixScheme(listen) && a.path == "")
  {
    if PyText.StartsWith(listen, HttpScheme) then Tcp(listen)
    else
      var parts := PyText.Partition(listen, UnixScheme);
      assert parts.1 == UnixScheme ==>
        FirstUnixSchemeAt(listen, |parts.0|) && listen[|parts.0| + |UnixScheme|..] == parts.2;
      UnixSocket(parts.2)
  }

  /** `unix://<path>` is served on `<path>`, even if the path itself contains "unix://". */
  lemma UnixFormGivesPath(path: string)
    ensures Classify(UnixScheme + path) == UnixSocket(path)
  {
    assert !PyText.StartsWith(UnixScheme + path, HttpScheme) by {
      assert (UnixScheme + path)[0] == 'u';
    }
    PyText.PartitionAfterFirst("", UnixScheme, path);
    assert "" + UnixScheme + path == UnixScheme + path;
  }

  /** A value that names neither scheme, `https://...` among them, is taken as a unix
      socket with an empty path. */
  lemma NoSchemeGivesEmptyPath(listen: string)
    requires !PyText.StartsWith(listen, HttpScheme)
    requires forall j :: 0 <= j <= |listen| ==> !PyText.OccursAt(listen, UnixScheme, j)
    ensures Classify(listen) == UnixSocket("")
  {
  }

  /** What `os.unlink(sock)` did. */
  datatype UnlinkOutcome = Unlinked | UnlinkFailed(errno: int)

  /** The `try: os.unlink(sock) except OSError` block: a missing file is ignored, every
      other error propagates with its errno. */
  function RemoveStaleSocket(unlink: UnlinkOutcome): (r: Outcome<int>)
    ensures r.Pass? <==> unlink.Unlinked? || unlink.errno == ENOENT
    ensures r.Fail? ==> r.error == unlink.errno
  {
    match unlink
    case Unlinked => Pass
    case UnlinkFailed(e) => if e != ENOENT then Fail(e) else Pass
  }
}
