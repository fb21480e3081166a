/** The link element: saving normalises the address to carry an http(s)
    scheme and gives the link a default title; the preview is offered only for
    hosts that allow being framed. */
module LinkElement {
  import opened Wrappers
  import opened Text
  import opened BoardModel

  const HttpsPrefix: string := "https://"

  /** `/^https?:\/\//i`: the address starts with `http://` or `https://`, in
      any mix of upper and lower case. */
  function HasHttpScheme(url: string): (r: bool)
    ensures r ==> |url| >= 7 && LowerAscii(url[0]) == 'h'
  {
    StartsWithIgnoringCase(url, "http://") || StartsWithIgnoringCase(url, HttpsPrefix)
  }

  /** The address `handleSave` stores: the trimmed input, prefixed with
      `https://` when it has no http(s) scheme. */
  function NormaliseUrl(raw: string): (r: string)
    ensures HasHttpScheme(Trim(raw)) ==> r == Trim(raw)
    ensures !HasHttpScheme(Trim(raw)) ==> r == HttpsPrefix + Trim(raw)
  {
    var url := Trim(raw);
    if HasHttpScheme(url) then url else HttpsPrefix + url
  }

  /** Every stored address has an http(s) scheme and no surrounding whitespace. */
  lemma NormalisedUrlHasScheme(raw: string)
    ensures HasHttpScheme(NormaliseUrl(raw)) && IsTrimmed(NormaliseUrl(raw))
  {
    var url := Trim(raw);
    if !HasHttpScheme(url) {
      var r := HttpsPrefix + url;
      assert r[..|HttpsPrefix|] == HttpsPrefix;
      assert StartsWithIgnoringCase(r, HttpsPrefix);
      assert !IsSpace(r[0]);
      assert url != [] ==> r[|r| - 1] == url[|url| - 1];
    }
  }

  /** Normalising a normalised address changes nothing. */
  lemma NormaliseUrlIdempotent(raw: string)
    ensures NormaliseUrl(NormaliseUrl(raw)) == NormaliseUrl(raw)
  {
    NormalisedUrlHasScheme(raw);
  }

  /** An address whose first letter is not an `h` or `H` (`ftp://…`, `mailto:…`,
      `www.…`) is never recognised as having a scheme: it gets `https://` in
      front of its trimmed form. */
  lemma OtherSchemeIsPrefixed(raw: string)
    requires !IsBlank(raw) && LowerAscii(Trim(raw)[0]) != 'h'
    ensures NormaliseUrl(raw) == HttpsPrefix + Trim(raw)
  {
    assert LowerAscii("http://"[0]) == 'h' && LowerAscii(HttpsPrefix[0]) == 'h';
  }

  /** The title stored with a link: the trimmed title, or 'Link' when blank. */
  function LinkTitle(rawTitle: string): (r: string)
    ensures IsBlank(rawTitle) ==> r == "Link"
    ensures !IsBlank(rawTitle) ==> r == Trim(rawTitle)
    ensures r != []
  {
    if Trim(rawTitle) != [] then Trim(rawTitle) else "Link"
  }

  /** `handleSave`: no update for a blank address; otherwise the whole payload
      is replaced by the normalised address and the title. */
  function SaveLink(rawUrl: string, rawTitle: string): (r: Option<WebLink>)
    ensures r.Some? <==> !IsBlank(rawUrl)
    ensures r.Some? ==> r.value == WebLink(NormaliseUrl(rawUrl), LinkTitle(rawTitle))
  {
    if Trim(rawUrl) != [] then Some(WebLink(NormaliseUrl(rawUrl), LinkTitle(rawTitle))) else None
  }

  /** The hosts `isIframeable` refuses to frame. */
  const NonIframeableDomains: seq<string> := ["youtube.com", "twitter.com", "instagram.com", "facebook.com"]

  /** `isIframeable`, taking the URL's host name: false exactly when the host
      name contains one of the refused domains. */
  function IsIframeable(hostname: string): (r: bool)
    ensures |hostname| < 11 ==> r
  {
    assert forall k :: 0 <= k < |NonIframeableDomains| ==> |NonIframeableDomains[k]| >= 11;
    !(exists k :: 0 <= k < |NonIframeableDomains| && Contains(hostname, NonIframeableDomains[k]))
  }

  /** Every host name with a refused domain anywhere in it is refused. */
  lemma RefusedDomainsAreNeverFramed(prefix: string, k: int, suffix: string)
    requires 0 <= k < |NonIframeableDomains|
    ensures !IsIframeable(prefix + NonIframeableDomains[k] + suffix)
  {
    OccursAfterPrefix(prefix, NonIframeableDomains[k], suffix);
  }

  /** Any host name containing a refused domain, as a sub-domain or not, is
      refused; the match is by substring, so look-alike hosts are refused too. */
  lemma FramingExamples()
    ensures !IsIframeable("www.youtube.com")
    ensures !IsIframeable("notyoutube.com")
    ensures IsIframeable("example.org")
  {
    assert NonIframeableDomains[0] == "youtube.com";
    RefusedDomainsAreNeverFramed("www.", 0, "");
    assert "www." + NonIframeableDomains[0] + "" == "www.youtube.com";
    RefusedDomainsAreNeverFramed("not", 0, "");
    assert "not" + NonIframeableDomains[0] + "" == "notyoutube.com";
    forall k | 0 <= k < |NonIframeableDomains| ensures !Contains("example.org", NonIframeableDomains[k]) {
      assert |NonIframeableDomains[k]| >= 11;
      forall j | 0 <= j <= |"example.org"| - |NonIframeableDomains[k]|
        ensures !OccursAt("example.org", NonIframeableDomains[k], j)
      {
        assert j == 0;
        assert "example.org"[0] != NonIframeableDomains[k][0];
      }
    }
  }
}
