/**
 Server start-up: the static-file directory chosen by `main`, and the
 defaulting of bind address, port and static directory in `StartHTTP`,
 which composes the listen address. The server itself is not modelled.
 */
module Server {
  import opened Wrappers

  const DefaultIpAddr := "0.0.0.0"
  const DefaultPort := "80"
  const DefaultStaticPath := "./"
  /** Where `main` looks for the web pages below the program's directory. */
  const ViewDir := "/view/"

  /** The position of the last `c` in `s`, if `c` occurs in `s`. */
  function LastIndex(s: string, c: char): (r: Option<nat>)
    ensures r.Some? ==> r.value < |s| && s[r.value] == c && c !in s[r.value + 1..]
    ensures r.None? <==> c !in s
  {
    if s == [] then None
    else if s[|s| - 1] == c then Some(|s| - 1)
    else
      assert s == s[..|s| - 1] + [s[|s| - 1]];
      LastIndex(s[..|s| - 1], c)
  }

  /**
   Reads a listen address back as host and port, splitting it at its last
   colon. This is the reference inverse of the address composition below.
   */
  function SplitHostPort(address: string): (r: Option<(string, string)>)
    ensures r.Some? ==> r.value.0 + ":" + r.value.1 == address && ':' !in r.value.1
    ensures r.None? <==> ':' !in address
  {
    match LastIndex(address, ':')
    case None => None
    case Some(i) =>
      assert address == address[..i] + ":" + address[i + 1..];
      Some((address[..i], address[i + 1..]))
  }

  /** Splitting a composed address gives back its host and its port, whatever colons the host holds. */
  lemma SplitJoin(host: string, port: string)
    requires ':' !in port
    ensures SplitHostPort(host + ":" + port) == Some((host, port))
  {
    var address := host + ":" + port;
    assert address[|host|] == ':';
    assert address[|host| + 1..] == port;
    var i := LastIndex(address, ':').value;
    assert forall j :: |host| < j < |address| ==> address[j] == port[j - |host| - 1];
    assert forall j :: i < j < |address| ==> address[i + 1..][j - i - 1] == address[j];
    assert i == |host|;
    assert address[..|host|] == host;
  }

  /**
   `main`'s choice of static directory: the `-d` flag's value when it is
   non-empty, otherwise `/view/` below the program's own directory
   (`rootOfProgram`, the result of GetRootDir).
   */
  method StaticPath(rootDir: string, rootOfProgram: string) returns (staticPath: string)
    ensures rootDir != "" ==> staticPath == rootDir
    ensures rootDir == "" ==> staticPath == rootOfProgram + ViewDir
    ensures staticPath != ""
  {
    staticPath := rootOfProgram + ViewDir;
    if rootDir != "" {
      staticPath := rootDir;
    }
  }

  /**
   `StartHTTP` up to the point where it serves: empty arguments are replaced
   by their defaults, and the listen address is host, colon, port.
   */
  method StartHTTP(ipAddr: string, port: string, staticPath: string)
    returns (listenAddress: string, root: string)
    ensures root != "" && (staticPath != "" ==> root == staticPath) && (staticPath == "" ==> root == DefaultStaticPath)
    ensures ':' !in port ==>
              SplitHostPort(listenAddress)
              == Some((if ipAddr == "" then DefaultIpAddr else ipAddr, if port == "" then DefaultPort else port))
    ensures listenAddress == (if ipAddr == "" then DefaultIpAddr else ipAddr) + ":" + (if port == "" then DefaultPort else port)
  {
    var ipAddr, port, staticPath := ipAddr, port, staticPath;
    if ipAddr == "" {
      ipAddr := DefaultIpAddr;
    }
    if port == "" {
      port := DefaultPort;
    }
    if staticPath == "" {
      staticPath := DefaultStaticPath;
    }
    listenAddress := ipAddr + ":" + port;
    root := staticPath;
    if ':' !in port {
      SplitJoin(ipAddr, port);
    }
  }

  /**
   `main` after flag parsing: pick the static directory, then start. The
   directory `main` passes is never empty, so `StartHTTP`'s "./" default is
   never the one served when the program starts through `main`.
   */
  method Start(rootDir: string, port: string, ipAddress: string, rootOfProgram: string)
    returns (listenAddress: string, root: string)
    ensures root == if rootDir != "" then rootDir else rootOfProgram + ViewDir
    ensures listenAddress == (if ipAddress == "" then DefaultIpAddr else ipAddress) + ":" + (if port == "" then DefaultPort else port)
    ensures ':' !in port ==>
              SplitHostPort(listenAddress)
              == Some((if ipAddress == "" then DefaultIpAddr else ipAddress, if port == "" then DefaultPort else port))
  {
    var staticPath := StaticPath(rootDir, rootOfProgram);
    listenAddress, root := StartHTTP(ipAddress, port, staticPath);
  }
}
