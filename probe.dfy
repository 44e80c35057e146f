/**
 * The health prober: how one HTTP answer of the control plane is classified
 * (`httpProbe`) and which URL is asked (`istiodHealth`).
 */
module Probe {
  import opened Wrappers

  /** What one GET against the status endpoint produced: no answer at all, or an HTTP status. */
  datatype Response = TransportError | HttpStatus(code: int)

  /** The error `httpProbe` returns: the transport's own error, or one naming the bad status. */
  datatype ProbeError = Transport | BadStatus(code: int)

  /** The status port of the control plane, fixed in the URL. */
  const STATUS_PORT: string := "15014"

  /** `httpProbe`: a transport error is returned as is; a status of 500 or more becomes an error. */
  function HttpProbe(r: Response): Option<ProbeError>
  {
    match r
    case TransportError => Some(Transport)
    case HttpStatus(code) => if code >= 500 then Some(BadStatus(code)) else None
  }

  /** A probe that fails: the transport erred or the status is 500 or more. */
  predicate Failed(r: Response)
  {
    r.TransportError? || r.code >= 500
  }

  /**
   * `httpProbe` returns an error exactly for a failed probe, and that error names the bad status;
   * every status below 500 (3xx and 4xx included) is healthy.
   */
  lemma ProbeFailsIff(r: Response)
    ensures HttpProbe(r).Some? <==> Failed(r)
    ensures r.TransportError? ==> HttpProbe(r) == Some(Transport)
    ensures r.HttpStatus? && r.code >= 500 ==> HttpProbe(r) == Some(BadStatus(r.code))
    ensures r.HttpStatus? ==> (HttpProbe(r) == None <==> r.code < 500)
  {
  }

  /** `strings.Split(address, ":")[0]`: the text before the first colon, or the whole address without one. */
  function Host(address: string): (h: string)
    ensures h <= address
    ensures ':' !in h
    ensures |h| < |address| ==> address[|h|] == ':'
    ensures ':' !in address ==> h == address
    decreases |address|
  {
    if address == [] || address[0] == ':' then [] else [address[0]] + Host(address[1..])
  }

  /** The three properties of Host determine it: any colon-free prefix that ends at a colon or at the end is the host. */
  lemma HostUnique(address: string, h: string)
    requires h <= address
    requires ':' !in h
    requires |h| == |address| || address[|h|] == ':'
    ensures Host(address) == h
  {
    var g := Host(address);
    assert g == address[..|g|] && h == address[..|h|];
  }

  /** The URL `istiodHealth` probes: plain HTTP, the discovery host, the status port, no path. */
  function StatusUrl(address: string): string
  {
    "http://" + Host(address) + ":" + STATUS_PORT
  }

  /** For a discovery address `host:port` (or a bare host) the probe goes to `http://host:15014`, whatever the port. */
  lemma StatusUrlOfHostPort(host: string, port: string)
    requires ':' !in host
    ensures StatusUrl(host + ":" + port) == "http://" + host + ":15014"
    ensures StatusUrl(host) == "http://" + host + ":15014"
  {
    var address := host + ":" + port;
    assert address[..|host|] == host;
    HostUnique(address, host);
    HostUnique(host, host);
  }
}
