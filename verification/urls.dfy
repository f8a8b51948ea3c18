/** URLs as `URLComponents` sees them, and the scheme rewrite done before a fetch. */
module Urls {

  import opened Prelude
  import Strings

  /** A URL split into its components; the scheme may be absent. */
  datatype Url = Url(
    scheme: Option<string>,
    user: Option<string>,
    password: Option<string>,
    host: Option<string>,
    port: Option<int>,
    path: string,
    query: Option<string>,
    fragment: Option<string>)

  /** True when a scheme (absent counting as the empty string) mentions "https". */
  ghost predicate MentionsHttps(scheme: Option<string>) {
    Strings.HasSubstring(scheme.GetOr(""), "https")
  }

  /** The scheme a fetch uses in place of `scheme`. */
  function FetchScheme(scheme: Option<string>): (r: string)
    ensures r == "https" || r == "http"
    ensures r == "https" <==> MentionsHttps(scheme)
  {
    Strings.ContainsIsSubstring(scheme.GetOr(""), "https");
    if Strings.Contains(scheme.GetOr(""), "https") then "https" else "http"
  }

  /** The URL a cache miss is fetched from: the scheme replaced, every other component kept. */
  function Normalise(u: Url): (r: Url)
    ensures r.scheme == Some("https") || r.scheme == Some("http")
    ensures r.scheme == Some("https") <==> MentionsHttps(u.scheme)
    ensures r.user == u.user && r.password == u.password
    ensures r.host == u.host && r.port == u.port && r.path == u.path
    ensures r.query == u.query && r.fragment == u.fragment
  {
    u.(scheme := Some(FetchScheme(u.scheme)))
  }

  /** Normalising twice gives the same URL as normalising once. */
  lemma NormaliseIdempotent(u: Url)
    ensures Normalise(Normalise(u)) == Normalise(u)
  {
    assert Strings.OccursAt("https", "https", 0);
  }

  /** Two URLs are fetched from the same place exactly when they differ at most in a scheme
      that both or neither mention "https". */
  lemma NormaliseCollapsesSchemes(u: Url, v: Url)
    ensures Normalise(u) == Normalise(v)
        <==> u.(scheme := None) == v.(scheme := None) && (MentionsHttps(u.scheme) <==> MentionsHttps(v.scheme))
  {
  }
}
