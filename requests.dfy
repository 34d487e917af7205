/**
 The values one dispatch cycle works on: a request as the backend hands it
 out, what the fast URL parser reports, and the faults that escape a cycle.
 */
module Requests {

  import opened Wrappers
  import opened Text

  /** A pending request. `domain` is the 'domain' entry of the request's meta:
      None when the entry is absent, Some(name) when it is present, with
      name == None when that entry has no 'name'. `jid` is the meta slot the
      generator fills with the job id. */
  datatype Request = Request(
    url: string,
    fingerprint: seq<byte>,
    domain: Option<Option<string>>,
    jid: Option<int>)

  /** Tags a request with the job id before it is encoded. */
  function Tag(r: Request, jobId: int): (t: Request)
    ensures t.jid == Some(jobId)
    ensures t.url == r.url && t.fingerprint == r.fingerprint && t.domain == r.domain
  {
    r.(jid := Some(jobId))
  }

  lemma TagIdempotent(r: Request, jobId: int)
    ensures Tag(Tag(r, jobId), jobId) == Tag(r, jobId)
  {
  }

  /** What `parse_domain_from_url_fast` does with a URL: it raises, or it
      yields a hostname, which it reports as None when the URL has none. */
  datatype HostParse = ParseRaised | Parsed(hostname: Option<string>)

  /** An exception that leaves `run`: the URL parser raising inside the
      blacklist check, or a None hostname reaching `.encode` in the hostname
      key strategy. */
  datatype Fault = UrlParseError | HostnameMissing

  /** A value, or the exception raised while computing it. */
  datatype Outcome<+T> = Value(value: T) | Raised(fault: Fault)

  /** The partition-key strategy, fixed when the generator is built. */
  datatype KeyStrategy = ByFingerprint | ByHostname
}
