/** The domain blacklist filter of the batch generator. */
module Blacklist {

  import opened Wrappers
  import opened Text
  import opened Requests

  /** The hostname the filter checks: the 'name' of the request's 'domain'
      meta entry when that entry exists, otherwise what the URL parser finds,
      a raising parser propagating. */
  function ResolveHostname(parse: string -> HostParse, r: Request): (h: Outcome<Option<string>>)
    ensures r.domain.Some? ==> h == Value(r.domain.value)
    ensures r.domain.None? && parse(r.url).ParseRaised? ==> h == Raised(UrlParseError)
    ensures r.domain.None? && parse(r.url).Parsed? ==> h == Value(parse(r.url).hostname)
  {
    match r.domain
    case Some(name) => Value(name)
    case None =>
      match parse(r.url)
      case ParseRaised => Raised(UrlParseError)
      case Parsed(hostname) => Value(hostname)
  }

  /** Whether a request is dropped: the blacklist is non-empty and the
      resolved, non-empty hostname, lower-cased, is in it. */
  function IsDomainBlacklisted(blacklist: set<string>, parse: string -> HostParse, r: Request): (d: Outcome<bool>)
    ensures blacklist == {} ==> d == Value(false)
    ensures d.Raised? <==> blacklist != {} && ResolveHostname(parse, r).Raised?
    ensures d == Value(true) <==>
              blacklist != {} && ResolveHostname(parse, r).Value? &&
              ResolveHostname(parse, r).value.Some? &&
              ResolveHostname(parse, r).value.value != "" &&
              Lower(ResolveHostname(parse, r).value.value) in blacklist
  {
    if blacklist == {} then Value(false)
    else
      match ResolveHostname(parse, r)
      case Raised(f) => Raised(f)
      case Value(None) => Value(false)
      case Value(Some(h)) => Value(h != "" && Lower(h) in blacklist)
  }

  /** A request carrying 'domain' meta is judged without parsing its URL. */
  lemma DomainMetaTakesPrecedence(blacklist: set<string>, p: string -> HostParse, q: string -> HostParse, r: Request)
    requires r.domain.Some?
    ensures IsDomainBlacklisted(blacklist, p, r) == IsDomainBlacklisted(blacklist, q, r)
  {
  }

  /** A request whose hostname is missing or empty always passes. */
  lemma MissingHostnamePasses(blacklist: set<string>, parse: string -> HostParse, r: Request)
    requires ResolveHostname(parse, r) == Value(None) || ResolveHostname(parse, r) == Value(Some(""))
    ensures IsDomainBlacklisted(blacklist, parse, r) == Value(false)
  {
  }

  /** The check ignores the case of the hostname: two requests whose
      resolved hostnames are equal once lower-cased, whether they come from the
      'domain' meta or from the URL parser, get the same verdict. */
  lemma CaseInsensitive(blacklist: set<string>, p: string -> HostParse, q: string -> HostParse,
                        r: Request, s: Request, h1: string, h2: string)
    requires ResolveHostname(p, r) == Value(Some(h1))
    requires ResolveHostname(q, s) == Value(Some(h2))
    requires Lower(h1) == Lower(h2)
    ensures IsDomainBlacklisted(blacklist, p, r) == IsDomainBlacklisted(blacklist, q, s)
  {
    LowerEmpty(h1);
    LowerEmpty(h2);
  }

  /** The verdict does not depend on the job-id tag. */
  lemma VerdictIgnoresTag(blacklist: set<string>, parse: string -> HostParse, r: Request, jobId: int)
    ensures IsDomainBlacklisted(blacklist, parse, Tag(r, jobId)) == IsDomainBlacklisted(blacklist, parse, r)
  {
  }

  /** Only the hostname is lower-cased, never the configured entries: a
      blacklist whose every entry holds an upper-case ASCII letter drops
      nothing. */
  lemma UpperEntriesNeverMatch(blacklist: set<string>, parse: string -> HostParse, r: Request)
    requires forall e :: e in blacklist ==> exists i :: 0 <= i < |e| && IsUpperAscii(e[i])
    ensures IsDomainBlacklisted(blacklist, parse, r) != Value(true)
  {
  }
}
