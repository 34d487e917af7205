/** The two partition-key strategies of the batch generator. */
module KeySelection {

  import opened Wrappers
  import opened Text
  import opened Requests

  /** The key of the fingerprint strategy: the fingerprint itself. */
  function GetFingerprint(r: Request): (key: seq<byte>)
    ensures key == r.fingerprint
  {
    r.fingerprint
  }

  /** The key of the hostname strategy: the parsed hostname as UTF-8 bytes,
      with its case as the parser reported it. A parser that raises is
      logged and gives no key; a URL the parser finds no hostname in makes
      `.encode` raise on None, which is not caught. */
  function GetHostname(parse: string -> HostParse, r: Request): (key: Outcome<Option<seq<byte>>>)
    ensures parse(r.url) == ParseRaised ==> key == Value(None)
    ensures parse(r.url) == Parsed(None) ==> key == Raised(HostnameMissing)
    ensures parse(r.url).Parsed? && parse(r.url).hostname.Some? ==>
              && key.Value? && key.value.Some?
              && key.value.value == Utf8(parse(r.url).hostname.value)
              && Utf8Decode(key.value.value) == Some(parse(r.url).hostname.value)
  {
    match parse(r.url)
    case ParseRaised => Value(None)
    case Parsed(None) => Raised(HostnameMissing)
    case Parsed(Some(h)) =>
      Utf8RoundTrip(h);
      Value(Some(Utf8(h)))
  }

  /** The key `run` sends a request under, by the strategy chosen at
      construction. */
  function KeyFor(strategy: KeyStrategy, parse: string -> HostParse, r: Request): (key: Outcome<Option<seq<byte>>>)
    ensures strategy == ByFingerprint ==> key == Value(Some(r.fingerprint))
    ensures strategy == ByHostname ==> key == GetHostname(parse, r)
  {
    match strategy
    case ByFingerprint => Value(Some(GetFingerprint(r)))
    case ByHostname => GetHostname(parse, r)
  }

  /** The key depends only on the URL and the fingerprint, so tagging the
      request with a job id never changes where it is routed. */
  lemma KeyIgnoresTag(strategy: KeyStrategy, parse: string -> HostParse, r: Request, jobId: int)
    ensures KeyFor(strategy, parse, Tag(r, jobId)) == KeyFor(strategy, parse, r)
  {
  }

  /** Requests with the same URL and fingerprint get the same key. */
  lemma KeyDeterministic(strategy: KeyStrategy, parse: string -> HostParse, r: Request, s: Request)
    requires r.url == s.url && r.fingerprint == s.fingerprint
    ensures KeyFor(strategy, parse, r) == KeyFor(strategy, parse, s)
  {
  }

  /** The hostname strategy does not lower-case: hostnames that differ only
      in case are routed under different keys. */
  lemma HostnameKeyKeepsCase(parse: string -> HostParse, r: Request, s: Request)
    requires parse(r.url) == Parsed(Some("Example.com"))
    requires parse(s.url) == Parsed(Some("example.com"))
    ensures GetHostname(parse, r).Value? && GetHostname(parse, s).Value?
    ensures GetHostname(parse, r) != GetHostname(parse, s)
  {
    var upper, lower := "Example.com", "example.com";
    assert upper[0] != lower[0];
    if Utf8(upper) == Utf8(lower) {
      Utf8Injective(upper, lower);
    }
  }
}
