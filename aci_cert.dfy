/**
 * The certificate session of aciClient/aciCertClient.py (class ACICert).
 *
 * Nothing changes after construction and nothing loops: every request is
 * built from strings and signed on its own. Each operation yields the
 * request it sends (URL, body, the four signature cookies) and what it does
 * with the response. Signing and base64 are the uninterpreted functions of
 * `Library`.
 */
module CertSession {
  import opened Wrappers
  import opened JsonValue
  import opened Http
  import opened Foreign

  const FingerprintCookie: string := "APIC-Certificate-Fingerprint"
  const AlgorithmCookie: string := "APIC-Certificate-Algorithm"
  const DnCookie: string := "APIC-Certificate-DN"
  const SignatureCookie: string := "APIC-Request-Signature"

  /** The attributes `__init__` sets; the key is the one loaded from the PEM file. */
  datatype ACICert = ACICert(apicIp: string, baseUrl: string, pkey: PrivateKey, certDn: string)
  {
    /** What `__init__` establishes between the address and the base URL. */
    predicate Valid()
    {
      baseUrl == "https://" + apicIp + "/api/"
    }
  }

  /** A request sent and what the call then does. */
  datatype Exchange<+T> = Exchange(sent: Request, result: Outcome<T>)

  /** What `postJson` returns: 200, or the status paired with the controller's error text. */
  datatype PostReply = Posted(status: int) | PostedWithText(status: int, text: Json)

  /** `__init__` (the key file already read and loaded). */
  function Init(apicIp: string, pkey: PrivateKey, certDn: string): (c: ACICert)
    ensures c.Valid()
    ensures c.apicIp == apicIp && c.pkey == pkey && c.certDn == certDn
  {
    ACICert(apicIp, "https://" + apicIp + "/api/", pkey, certDn)
  }

  /**
   * packCookies: four cookies, two fixed, the certificate DN, and the base64 of
   * the SHA-256 signature of exactly `content`.
   */
  function PackCookies(c: ACICert, lib: Library, content: string): (h: map<string, string>)
    ensures h.Keys == {FingerprintCookie, AlgorithmCookie, DnCookie, SignatureCookie} && |h| == 4
    ensures h[FingerprintCookie] == "fingerprint" && h[AlgorithmCookie] == "v1.0"
    ensures h[DnCookie] == c.certDn
    ensures h[SignatureCookie] == lib.b64encode(lib.sign(c.pkey, content, "sha256"))
  {
    map[FingerprintCookie := "fingerprint",
        AlgorithmCookie := "v1.0",
        DnCookie := c.certDn,
        SignatureCookie := lib.b64encode(lib.sign(c.pkey, content, "sha256"))]
  }

  /** The string `getJson` signs. */
  function GetContent(uri: string): string
  {
    "GET/api/" + uri
  }

  /** The string `postJson` signs: the insertion-order serialisation, not the body it sends. */
  function PostContent(lib: Library, jsonData: Json): string
  {
    "POST/api/mo.json" + lib.dumps(jsonData)
  }

  /** The string `deleteMo` signs. */
  function DeleteContent(dn: string): string
  {
    "DELETE/api/mo/" + dn + ".json"
  }

  /** The request `getJson(uri)` sends. */
  function GetRequest(c: ACICert, lib: Library, uri: string): Request
  {
    Request(Get, c.baseUrl + uri, None, PackCookies(c, lib, GetContent(uri)))
  }

  /** The request `postJson(jsonData)` sends: the sorted-key body, signed over the unsorted one. */
  function PostRequest(c: ACICert, lib: Library, jsonData: Json): Request
  {
    Request(Post, c.baseUrl + "mo.json", Some(lib.dumpsSorted(jsonData)), PackCookies(c, lib, PostContent(lib, jsonData)))
  }

  /** The request `deleteMo(dn)` sends. */
  function DeleteRequest(c: ACICert, lib: Library, dn: string): Request
  {
    Request(Delete, c.baseUrl + "mo/" + dn + ".json", None, PackCookies(c, lib, DeleteContent(dn)))
  }

  /** getJson: an error status raises; otherwise the body's `imdata` is returned. */
  function GetJson(c: ACICert, lib: Library, uri: string, resp: Response): (x: Exchange<Json>)
    ensures x.sent == GetRequest(c, lib, uri)
    ensures IsError(resp.status) ==> x.result == Raised(HttpError(resp.status))
    ensures IsOk(resp.status) ==> (x.result.Returned? <==> Field(resp.body, "imdata").Some?)
    ensures x.result.Returned? ==> x.result.value == Field(resp.body, "imdata").value
    ensures x.result.Raised? && IsOk(resp.status) ==> x.result.error == Malformed
  {
    var sent := GetRequest(c, lib, uri);
    if IsError(resp.status) then Exchange(sent, Raised(HttpError(resp.status)))
    else
      match Field(resp.body, "imdata")
      case None => Exchange(sent, Raised(Malformed))
      case Some(data) => Exchange(sent, Returned(data))
  }

  /**
   * postJson: sends the sorted-key serialisation to mo.json; an error status
   * raises; 200 returns 200; any other status returns the status and the
   * body's error text.
   */
  function PostJson(c: ACICert, lib: Library, jsonData: Json, resp: Response): (x: Exchange<PostReply>)
    ensures x.sent == PostRequest(c, lib, jsonData)
    ensures IsError(resp.status) ==> x.result == Raised(HttpError(resp.status))
    ensures resp.status == 200 ==> x.result == Returned(Posted(200))
    ensures IsOk(resp.status) && resp.status != 200 ==>
      match ErrorTextAt(resp.body)
      case None => x.result == Raised(Malformed)
      case Some(text) => x.result == Returned(PostedWithText(resp.status, text))
  {
    var sent := PostRequest(c, lib, jsonData);
    if IsError(resp.status) then Exchange(sent, Raised(HttpError(resp.status)))
    else if resp.status == 200 then Exchange(sent, Returned(Posted(resp.status)))
    else
      match ErrorTextAt(resp.body)
      case None => Exchange(sent, Raised(Malformed))
      case Some(text) => Exchange(sent, Returned(PostedWithText(resp.status, text)))
  }

  /** deleteMo: deletes `mo/<dn>.json`; an error status raises, otherwise the status is returned. */
  function DeleteMo(c: ACICert, lib: Library, dn: string, resp: Response): (x: Exchange<int>)
    ensures x.sent == DeleteRequest(c, lib, dn)
    ensures IsError(resp.status) <==> x.result.Raised?
    ensures x.result.Raised? ==> x.result.error == HttpError(resp.status)
    ensures x.result.Returned? ==> x.result.value == resp.status
  {
    var sent := DeleteRequest(c, lib, dn);
    if IsError(resp.status) then Exchange(sent, Raised(HttpError(resp.status)))
    else Exchange(sent, Returned(resp.status))
  }

  /** The part of a URL after `https://<apicIp>`: what the signature covers. */
  function PathOf(c: ACICert, url: string): string
    requires |"https://" + c.apicIp| <= |url|
  {
    url[|"https://" + c.apicIp|..]
  }

  /**
   * The signed content of a GET is the method name followed by the URL with
   * its `https://<apicIp>` prefix removed.
   */
  lemma GetSignsVerbAndPath(c: ACICert, lib: Library, uri: string)
    requires c.Valid()
    ensures var sent := GetRequest(c, lib, uri);
            && sent.url[..|"https://" + c.apicIp|] == "https://" + c.apicIp
            && sent.cookies == PackCookies(c, lib, Get.Name() + PathOf(c, sent.url))
  {
    var host := "https://" + c.apicIp;
    var url := c.baseUrl + uri;
    assert url == host + ("/api/" + uri);
    assert url[|host|..] == "/api/" + uri;
    assert url[..|host|] == host;
    assert GetContent(uri) == Get.Name() + url[|host|..];
  }

  /** The same relation for DELETE: `DELETE` followed by `/api/mo/<dn>.json`. */
  lemma DeleteSignsVerbAndPath(c: ACICert, lib: Library, dn: string)
    requires c.Valid()
    ensures var sent := DeleteRequest(c, lib, dn);
            && sent.url[..|"https://" + c.apicIp|] == "https://" + c.apicIp
            && sent.cookies == PackCookies(c, lib, Delete.Name() + PathOf(c, sent.url))
  {
    var host := "https://" + c.apicIp;
    var url := c.baseUrl + "mo/" + dn + ".json";
    assert url == host + ("/api/mo/" + dn + ".json");
    assert url[|host|..] == "/api/mo/" + dn + ".json";
    assert url[..|host|] == host;
    assert DeleteContent(dn) == Delete.Name() + url[|host|..];
  }

  /** Two strings behind one prefix are equal exactly when the strings are. */
  lemma PrefixCancels(prefix: string, a: string, b: string)
    ensures prefix + a == prefix + b <==> a == b
  {
    if prefix + a == prefix + b {
      assert a == (prefix + a)[|prefix|..];
      assert b == (prefix + b)[|prefix|..];
    }
  }

  /**
   * POST signs the method, the path and the insertion-order serialisation,
   * while it sends the sorted-key serialisation to mo.json: the signed
   * content is method + path + transmitted body exactly when the two
   * serialisations agree.
   */
  lemma PostSignsUnsortedBody(c: ACICert, lib: Library, jsonData: Json)
    requires c.Valid()
    ensures var sent := PostRequest(c, lib, jsonData);
            && sent.url == c.baseUrl + "mo.json"
            && sent.body == Some(lib.dumpsSorted(jsonData))
            && sent.cookies == PackCookies(c, lib, Post.Name() + PathOf(c, sent.url) + lib.dumps(jsonData))
            && (PostContent(lib, jsonData) == Post.Name() + PathOf(c, sent.url) + sent.body.value
                <==> lib.dumps(jsonData) == lib.dumpsSorted(jsonData))
  {
    var host := "https://" + c.apicIp;
    var url := c.baseUrl + "mo.json";
    assert url == host + "/api/mo.json";
    assert url[|host|..] == "/api/mo.json";
    var prefix := Post.Name() + "/api/mo.json";
    assert PostContent(lib, jsonData) == prefix + lib.dumps(jsonData);
    PrefixCancels(prefix, lib.dumps(jsonData), lib.dumpsSorted(jsonData));
  }
}
