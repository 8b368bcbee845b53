/** Public URLs for the gateway's own assets: a configured or request-derived
    base followed by a root-relative path. */
module UrlBuilder {
  import opened Common

  /** Where the incoming request came from, as far as URLs are concerned. */
  datatype RequestOrigin = RequestOrigin(protocol: string, host: Option<string>)

  /** The base before normalisation: the configured public base URL when
      there is one, otherwise `protocol://host` with a missing host left
      empty. */
  function RawBase(publicBaseUrl: Option<string>, protocol: string, host: Option<string>): (r: string)
    ensures publicBaseUrl.Some? ==> r == publicBaseUrl.value
    ensures publicBaseUrl.None? ==> r == protocol + "://" + host.GetOr("")
  {
    if publicBaseUrl.Some? then publicBaseUrl.value else protocol + "://" + host.GetOr("")
  }

  /** The path with a leading `/`, added only when it is missing. */
  function NormalizedPath(relativePath: string): (r: string)
    ensures StartsWith(r, "/")
    ensures StartsWith(relativePath, "/") ==> r == relativePath
    ensures !StartsWith(relativePath, "/") ==> r == "/" + relativePath
  {
    if StartsWith(relativePath, "/") then relativePath else "/" + relativePath
  }

  /** `buildPublicAssetUrl()`: the base with one trailing `/` removed,
      followed by the normalised path. */
  function BuildPublicAssetUrl(publicBaseUrl: Option<string>, protocol: string, host: Option<string>,
                               relativePath: string): string
  {
    StripTrailingSlash(RawBase(publicBaseUrl, protocol, host)) + NormalizedPath(relativePath)
  }

  /** The URL is the base, less at most one trailing `/`, followed by a path
      that starts with `/`; the original path is its end. */
  lemma BuildPublicAssetUrlShape(publicBaseUrl: Option<string>, protocol: string, host: Option<string>,
                                 relativePath: string)
    ensures var base := RawBase(publicBaseUrl, protocol, host);
      var url := BuildPublicAssetUrl(publicBaseUrl, protocol, host, relativePath);
      var kept := if EndsWith(base, "/") then |base| - 1 else |base|;
      && |url| > kept
      && url[..kept] == base[..kept]
      && url[kept] == '/'
      && EndsWith(url, relativePath)
  {
    var base := RawBase(publicBaseUrl, protocol, host);
    StrippedIsPrefix(base);
    PathEnd(StripTrailingSlash(base), relativePath);
  }

  /** Removing the trailing `/` keeps the rest of the base. */
  lemma StrippedIsPrefix(base: string)
    ensures var kept := if EndsWith(base, "/") then |base| - 1 else |base|;
      StripTrailingSlash(base) == base[..kept]
  {
    var stripped := StripTrailingSlash(base);
    if EndsWith(base, "/") {
      assert (stripped + "/")[..|stripped|] == stripped;
    }
  }

  /** Appending the normalised path puts a `/` right after the base and
      ends with the original path. */
  lemma PathEnd(stripped: string, relativePath: string)
    ensures var url := stripped + NormalizedPath(relativePath);
      url[..|stripped|] == stripped && url[|stripped|] == '/' && EndsWith(url, relativePath)
  {
    var path := NormalizedPath(relativePath);
    var url := stripped + path;
    assert url[|stripped|..] == path;
    if !StartsWith(relativePath, "/") {
      assert path[1..] == relativePath;
    }
    assert url[|url| - |relativePath|..] == path[|path| - |relativePath|..];
  }

  /** A base without a trailing `/` and a root-relative path are simply
      concatenated. */
  lemma BuildPublicAssetUrlPlain(publicBaseUrl: Option<string>, protocol: string, host: Option<string>,
                                 relativePath: string)
    requires !EndsWith(RawBase(publicBaseUrl, protocol, host), "/")
    requires StartsWith(relativePath, "/")
    ensures BuildPublicAssetUrl(publicBaseUrl, protocol, host, relativePath) ==
      RawBase(publicBaseUrl, protocol, host) + relativePath
  {
  }
}
