/**
 * The URL clean-up shared by the service views and the generic API client:
 * add `https://` when neither `http://` nor `https://` starts the text, then
 * drop every trailing `/`.
 */
module Urls {
  import opened Text

  const Http := "http://"
  const Https := "https://"

  predicate HasScheme(u: string) {
    StartsWith(u, Http) || StartsWith(u, Https)
  }

  /** `u` if it already names http or https, otherwise `https://` + `u`. */
  function WithScheme(u: string): (w: string)
    ensures HasScheme(w) && (HasScheme(u) ==> w == u)
  {
    if HasScheme(u) then u else Https + u
  }

  /**
   * `url` normalised as the views and the API client do it. The result is
   * the longest prefix of `WithScheme(url)` that does not end in `/`.
   */
  function NormalizeUrl(url: string): (r: string)
    ensures StartsWith(WithScheme(url), r)
    ensures r == [] || r[|r| - 1] != '/'
    ensures forall i :: |r| <= i < |WithScheme(url)| ==> WithScheme(url)[i] == '/'
  {
    RStrip(WithScheme(url), '/')
  }

  /** An input that already carries a scheme is only trimmed: nothing is added in front. */
  lemma ExplicitSchemeIsKept(url: string)
    requires HasScheme(url)
    ensures StartsWith(url, NormalizeUrl(url))
  {
  }

  /** A bare host without trailing slashes gains exactly the `https://` prefix. */
  lemma BareHostGetsHttps(url: string)
    requires !HasScheme(url) && url != [] && url[|url| - 1] != '/'
    ensures NormalizeUrl(url) == Https + url
  {
  }

  /** A normalised URL is never empty: the scheme's first letters survive the trimming. */
  lemma NormalizeNonEmpty(url: string)
    ensures NormalizeUrl(url) != [] && NormalizeUrl(url)[0] == 'h'
  {
    var w := WithScheme(url);
    assert w[0] == 'h' by {
      if StartsWith(w, Http) {
        assert w[0] == Http[0];
      } else {
        assert w[0] == Https[0];
      }
    }
  }

  /** Normalising again changes nothing once the result still carries its scheme. */
  lemma NormalizeIdempotent(url: string)
    requires HasScheme(NormalizeUrl(url))
    ensures NormalizeUrl(NormalizeUrl(url)) == NormalizeUrl(url)
  {
    var r := NormalizeUrl(url);
    assert r != [] && r[|r| - 1] != '/';
    assert WithScheme(r) == r;
  }

  /** ... but not in general: trimming `http://` eats the scheme's own slashes. */
  lemma NormalizeNotIdempotent()
    ensures NormalizeUrl("http://") == "http:"
    ensures NormalizeUrl("http:") == "https://http:"
  {
    assert WithScheme("http://") == "http://";
    assert RStrip("http://", '/') == RStrip("http:/", '/') == RStrip("http:", '/');
    assert !HasScheme("http:");
    assert WithScheme("http:") == "https://http:";
  }
}
