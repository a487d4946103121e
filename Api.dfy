/**
 * The HTTP client's response interceptor that points product image URLs
 * at the configured server: every `http://host` prefix is replaced by the
 * server URL, keeping the path that follows the host.
 */
module Api {
  import opened Wrappers

  /** The server used when none is configured. */
  const DefaultServerUrl: string := "http://213.171.25.9:3003"

  const HttpScheme: string := "http://"

  /** `configured || default`: an absent or empty setting falls back to the default. */
  function ServerUrl(configured: Option<string>): (r: string)
    ensures r != ""
    ensures configured.Some? && configured.value != "" ==> r == configured.value
    ensures configured.None? || configured.value == "" ==> r == DefaultServerUrl
  {
    if configured.Some? && configured.value != "" then configured.value else DefaultServerUrl
  }

  // ---------------------------------------------------------------------
  // The pattern ^http:\/\/[^/]+

  /** Nothing in `s[from..to]` is a '/'. */
  predicate NoSlash(s: string, from: nat, to: nat)
    requires from <= to <= |s|
  {
    forall i :: from <= i < to ==> s[i] != '/'
  }

  /** The index of the first '/' at or after `k`, or the end of `url` when there is none. */
  function HostEnd(url: string, k: nat): (r: nat)
    requires k <= |url|
    ensures k <= r <= |url|
    ensures NoSlash(url, k, r)
    ensures r < |url| ==> url[r] == '/'
    decreases |url| - k
  {
    if k == |url| || url[k] == '/' then k else HostEnd(url, k + 1)
  }

  /** The first '/' is the only place a greedy run of non-'/' characters can stop. */
  lemma {:induction false} HostEndAt(url: string, k: nat, e: nat)
    requires k <= e <= |url|
    requires NoSlash(url, k, e)
    requires e == |url| || url[e] == '/'
    ensures HostEnd(url, k) == e
    decreases e - k
  {
    if k < e {
      assert url[k] != '/';
      HostEndAt(url, k + 1, e);
    }
  }

  /** The anchored pattern matches: "http://" followed by at least one character other than '/'. */
  predicate HasHttpHost(url: string) {
    |url| > |HttpScheme| && url[..|HttpScheme|] == HttpScheme && url[|HttpScheme|] != '/'
  }

  /**
   * `url.replace(/^http:\/\/[^/]+/, replacement)`, reading the replacement
   * literally: the longest run of non-'/' characters after the scheme is
   * the match.
   */
  function ReplaceHost(url: string, replacement: string): (r: string)
    ensures !HasHttpHost(url) ==> r == url
    ensures HasHttpHost(url) ==>
      (exists e :: |HttpScheme| < e <= |url| && NoSlash(url, |HttpScheme|, e)
        && (e == |url| || url[e] == '/') && r == replacement + url[e..])
  {
    if HasHttpHost(url) then replacement + url[HostEnd(url, |HttpScheme|)..] else url
  }

  /** The callback applied to each image URL: empty URLs stay, the others are rewritten. */
  function RewriteUrl(url: string, configured: Option<string>): (r: string)
    ensures url == "" ==> r == ""
  {
    if url == "" then url
    else
      var serverUrl := ServerUrl(configured);
      if serverUrl != "" then ReplaceHost(url, serverUrl) else url
  }

  /**
   * What the rewrite means: a URL made of "http://", a host with no '/',
   * and a rest that is empty or starts with '/', becomes the server URL
   * followed by that rest.
   */
  lemma RewriteHostUrl(host: string, rest: string, configured: Option<string>)
    requires |host| >= 1 && forall i :: 0 <= i < |host| ==> host[i] != '/'
    requires rest == [] || rest[0] == '/'
    ensures RewriteUrl(HttpScheme + host + rest, configured) == ServerUrl(configured) + rest
  {
    var url := HttpScheme + host + rest;
    var e := |HttpScheme| + |host|;
    assert url[..|HttpScheme|] == HttpScheme;
    assert url[|HttpScheme|] == host[0];
    assert NoSlash(url, |HttpScheme|, e) by {
      forall i | |HttpScheme| <= i < e ensures url[i] != '/' {
        assert url[i] == host[i - |HttpScheme|];
      }
    }
    assert e == |url| || url[e] == '/' by {
      if e < |url| { assert url[e] == rest[0]; }
    }
    HostEndAt(url, |HttpScheme|, e);
    assert url[e..] == rest;
  }

  /** Every other URL is left as it is. */
  lemma RewriteOtherUrl(url: string, configured: Option<string>)
    requires !HasHttpHost(url)
    ensures RewriteUrl(url, configured) == url
  {
  }

  /** Every rewritten URL has exactly the shape `RewriteHostUrl` describes. */
  lemma RewrittenUrlShape(url: string, configured: Option<string>)
    requires HasHttpHost(url)
    ensures exists host, rest ::
      |host| >= 1 && (forall i :: 0 <= i < |host| ==> host[i] != '/') && (rest == [] || rest[0] == '/')
      && url == HttpScheme + host + rest && RewriteUrl(url, configured) == ServerUrl(configured) + rest
  {
    var e := HostEnd(url, |HttpScheme|);
    var host, rest := url[|HttpScheme|..e], url[e..];
    assert url == HttpScheme + host + rest by {
      assert url == url[..|HttpScheme|] + url[|HttpScheme|..e] + url[e..];
    }
    assert forall i :: 0 <= i < |host| ==> host[i] == url[|HttpScheme| + i];
    assert RewriteUrl(url, configured) == ServerUrl(configured) + rest;
    assert |host| >= 1 && (forall i :: 0 <= i < |host| ==> host[i] != '/') && (rest == [] || rest[0] == '/');
  }

  /** URLs the anchored, lower-case pattern does not match: another scheme, an empty host, upper case. */
  lemma UnmatchedExamples(configured: Option<string>)
    ensures RewriteUrl("https://cdn/a.png", configured) == "https://cdn/a.png"
    ensures RewriteUrl("http:///a.png", configured) == "http:///a.png"
    ensures RewriteUrl("HTTP://old/a.png", configured) == "HTTP://old/a.png"
  {
    assert "https://cdn/a.png"[4] == 's';
    assert "http:///a.png"[7] == '/';
    assert "HTTP://old/a.png"[0] == 'H';
  }

  /** A host with a port is replaced up to the path. */
  lemma MatchedExample()
    ensures RewriteUrl("http://old:80/img/a.png", None) == DefaultServerUrl + "/img/a.png"
  {
    RewriteHostUrl("old:80", "/img/a.png", None);
    assert HttpScheme + "old:80" + "/img/a.png" == "http://old:80/img/a.png";
  }

  /** A server URL that is just "http://" and a host, with no path. */
  predicate IsBareOrigin(serverUrl: string) {
    |serverUrl| > |HttpScheme| && serverUrl[..|HttpScheme|] == HttpScheme
    && forall i :: |HttpScheme| <= i < |serverUrl| ==> serverUrl[i] != '/'
  }

  lemma DefaultIsBareOrigin()
    ensures IsBareOrigin(DefaultServerUrl)
  {
    assert DefaultServerUrl[..|HttpScheme|] == HttpScheme;
  }

  /** With a bare-origin server URL, rewriting an already rewritten URL changes nothing. */
  lemma RewriteIdempotent(url: string, configured: Option<string>)
    requires IsBareOrigin(ServerUrl(configured))
    ensures RewriteUrl(RewriteUrl(url, configured), configured) == RewriteUrl(url, configured)
  {
    if url != "" && HasHttpHost(url) {
      RewrittenUrlShape(url, configured);
      var host, rest :| |host| >= 1 && (forall i :: 0 <= i < |host| ==> host[i] != '/') && (rest == [] || rest[0] == '/')
        && url == HttpScheme + host + rest && RewriteUrl(url, configured) == ServerUrl(configured) + rest;
      var s := ServerUrl(configured);
      var serverHost := s[|HttpScheme|..];
      assert s == HttpScheme + serverHost;
      assert forall i :: 0 <= i < |serverHost| ==> serverHost[i] == s[|HttpScheme| + i];
      RewriteHostUrl(serverHost, rest, configured);
      assert HttpScheme + serverHost + rest == s + rest;
    }
  }

  /** The default server's address is kept on a second pass. */
  lemma DefaultRewriteIdempotent(url: string)
    ensures RewriteUrl(RewriteUrl(url, None), None) == RewriteUrl(url, None)
  {
    DefaultIsBareOrigin();
    RewriteIdempotent(url, None);
  }

  // ---------------------------------------------------------------------
  // Products in a response

  /** The product fields the interceptor copies over untouched. */
  datatype ProductInfo = ProductInfo(
    productId: int, productName: string, description: string, price: int,
    quantity: int, categoryId: int, totalFeedbacks: int)

  /** A product in a list response; `imagesUrl` may be missing. */
  datatype Product = Product(info: ProductInfo, imagesUrl: Option<seq<string>>)

  /** `{...product, imagesUrl: product.imagesUrl?.map(rewrite) || []}`. */
  function RewriteProduct(p: Product, configured: Option<string>): (r: Product)
    ensures r.info == p.info && r.imagesUrl.Some?
    ensures p.imagesUrl.None? ==> r.imagesUrl.value == []
    ensures p.imagesUrl.Some? ==> |r.imagesUrl.value| == |p.imagesUrl.value|
    ensures p.imagesUrl.Some? ==> forall i :: 0 <= i < |p.imagesUrl.value| ==>
      r.imagesUrl.value[i] == RewriteUrl(p.imagesUrl.value[i], configured)
  {
    match p.imagesUrl
    case None => p.(imagesUrl := Some([]))
    case Some(urls) =>
      p.(imagesUrl := Some(seq(|urls|, i requires 0 <= i < |urls| => RewriteUrl(urls[i], configured))))
  }

  /** The new `items` list: one rewritten product per product, in order. */
  function RewriteItems(items: seq<Product>, configured: Option<string>): (r: seq<Product>)
    ensures |r| == |items|
    ensures forall i :: 0 <= i < |items| ==> r[i] == RewriteProduct(items[i], configured)
  {
    seq(|items|, i requires 0 <= i < |items| => RewriteProduct(items[i], configured))
  }

  /** The rewrite changes only image URLs: ids, names and every other field are kept in order. */
  lemma RewriteItemsKeepsInfo(items: seq<Product>, configured: Option<string>)
    ensures forall i :: 0 <= i < |items| ==> RewriteItems(items, configured)[i].info == items[i].info
  {
  }

  /** With a bare-origin server URL, running the interceptor twice gives the same items as once. */
  lemma RewriteItemsIdempotent(items: seq<Product>, configured: Option<string>)
    requires IsBareOrigin(ServerUrl(configured))
    ensures RewriteItems(RewriteItems(items, configured), configured) == RewriteItems(items, configured)
  {
    var once := RewriteItems(items, configured);
    var twice := RewriteItems(once, configured);
    forall i | 0 <= i < |items| ensures twice[i] == once[i] {
      var urls := once[i].imagesUrl.value;
      var again := twice[i].imagesUrl.value;
      forall j | 0 <= j < |urls| ensures again[j] == urls[j] {
        assert urls[j] == RewriteUrl(items[i].imagesUrl.value[j], configured);
        RewriteIdempotent(items[i].imagesUrl.value[j], configured);
      }
      assert again == urls;
    }
  }

  // ---------------------------------------------------------------------
  // The interceptor on the response object

  /** `response.data`: `items` is present in list responses and absent elsewhere. */
  class ResponseData {
    var items: Option<seq<Product>>

    constructor (items: Option<seq<Product>>)
      ensures this.items == items
    {
      this.items := items;
    }
  }

  class Response {
    var data: ResponseData?

    constructor (data: ResponseData?)
      ensures this.data == data
    {
      this.data := data;
    }
  }

  /**
   * The second response interceptor: when the response carries an `items`
   * list (an empty list counts), the list is replaced in place by its
   * rewritten copy; any other response passes through unchanged.
   */
  method RewriteImageHosts(response: Response, configured: Option<string>)
    modifies response.data
    ensures response.data == old(response.data)
    ensures response.data != null ==>
      response.data.items == if old(response.data.items).Some?
        then Some(RewriteItems(old(response.data.items).value, configured))
        else old(response.data.items)
  {
    var data := response.data;
    if data != null && data.items.Some? {
      data.items := Some(RewriteItems(data.items.value, configured));
    }
  }
}
