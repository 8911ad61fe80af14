/**
 * The username/password session of aciClient/aci.py (class ACI).
 *
 * The object holds two mutable attributes, `session` and `token`; `login`
 * and `renewCookie` assign them according to the controller's answer. Every
 * other operation only reads them. The transport is replaced by response
 * values passed in, and each operation reports the request(s) it hands to
 * the transport.
 */
module PasswordSession {
  import opened Wrappers
  import opened JsonValue
  import opened Http
  import opened Foreign

  /** The `session` attribute: None, False after a 401 login, or a live `requests.Session`. */
  datatype SessionState = Unset | Refused | Active

  /** The exact 400 text that makes `getJson` fall back to the paginated fetch. */
  const TooBigText: string := "Unable to process the query, result dataset is too big"

  /** The page size every paginated request asks for. */
  const PageSize: string := "50000"

  /** What `getJsonPaged` returns: the collected objects, `"400: " + text`, or False. */
  datatype PagedReply = PagedData(items: seq<Json>) | PagedError(text: string) | PagedFailed

  /** What `getJson` returns, by status code. */
  datatype GetReply =
    | Objects(imdata: Json)          // non-error status (below 400, or 600 and above): the `imdata` value
    | SubscriptionId(id: Json)       // non-error status with subscription=True
    | ErrorText(text: Json)          // 400: the bare controller error text
    | RawBody(body: Json)            // any other error: the decoded body
    | Paged(reply: PagedReply)       // 400 "result dataset is too big": getJsonPaged's result

  /** What `postJson` returns when it does not raise: a status code or `"400: " + text`. */
  datatype PostReply = Posted(status: int) | Rejected(text: string)

  /** How one page response steers the pagination loop. */
  datatype PageStep =
    | More(items: seq<Json>)          // a non-empty page: collect and go on
    | End                             // an empty page: return what was collected
    | Stop(result: Outcome<PagedReply>) // an error status or an unreadable body

  function PageStepOf(resp: Response): PageStep
  {
    if IsOk(resp.status) then
      match Field(resp.body, "imdata")
      case None => Stop(Raised(Malformed))
      case Some(data) =>
        if !Truthy(data) then End
        else if data.JArray? then More(data.items)
        else Stop(Raised(Malformed))
    else if resp.status == 400 then
      match ErrorTextAt(resp.body)
      case Some(JString(text)) => Stop(Returned(PagedError("400: " + text)))
      case _ => Stop(Raised(Malformed))
    else
      Stop(Returned(PagedFailed))
  }

  /** Some page stops the loop, so the loop over these responses ends. */
  predicate Terminates(pages: seq<Response>)
    decreases |pages|
  {
    |pages| > 0 && (!PageStepOf(pages[0]).More? || Terminates(pages[1..]))
  }

  /** The index of the first page that stops the loop: every page before it goes on. */
  function FirstStop(pages: seq<Response>): (n: nat)
    requires Terminates(pages)
    ensures n < |pages| && !PageStepOf(pages[n]).More?
    ensures forall j :: 0 <= j < n ==> PageStepOf(pages[j]).More?
    decreases |pages|
  {
    if !PageStepOf(pages[0]).More? then 0 else 1 + FirstStop(pages[1..])
  }

  /** The objects a page contributes: those of a non-empty page, none otherwise. */
  function PageItems(resp: Response): seq<Json>
  {
    match PageStepOf(resp)
    case More(items) => items
    case _ => []
  }

  /** The objects of a run of pages, concatenated in page order. */
  function Collected(pages: seq<Response>): seq<Json>
  {
    if pages == [] then []
    else Collected(pages[..|pages| - 1]) + PageItems(pages[|pages| - 1])
  }

  /** Taking one more page appends that page's objects. */
  lemma CollectedStep(pages: seq<Response>, k: nat)
    requires k < |pages|
    ensures Collected(pages[..k + 1]) == Collected(pages[..k]) + PageItems(pages[k])
  {
    assert pages[..k + 1][..k] == pages[..k];
  }

  /**
   * The result of the pagination loop, stated without the loop: the objects of
   * every page before the first empty one, or that stopping page's error; the
   * objects already collected are dropped on an error.
   */
  function PagedOutcome(pages: seq<Response>): Outcome<PagedReply>
    requires Terminates(pages)
  {
    var n := FirstStop(pages);
    match PageStepOf(pages[n])
    case End => Returned(PagedData(Collected(pages[..n])))
    case Stop(result) => result
  }

  /** The query pairs the loop has appended after `n` pages: (page, i), (page-size, 50000) for i < n. */
  function PagingPairs(n: nat): seq<QueryPair>
  {
    if n == 0 then []
    else PagingPairs(n - 1) + [("page", Number(n - 1)), ("page-size", Text(PageSize))]
  }

  /** The query of page `k`: the URL's own pairs, then the paging pairs of pages 0..k. */
  function PageQuery(original: seq<QueryPair>, k: nat): seq<QueryPair>
  {
    original + PagingPairs(k + 1)
  }

  /** After `n` pages the paging pairs are exactly (page, i), (page-size, 50000) for i = 0..n-1. */
  lemma {:induction false} PagingPairsShape(n: nat)
    ensures |PagingPairs(n)| == 2 * n
    ensures forall i :: 0 <= i < n ==> PagingPairs(n)[2 * i] == ("page", Number(i))
    ensures forall i :: 0 <= i < n ==> PagingPairs(n)[2 * i + 1] == ("page-size", Text(PageSize))
  {
    if n > 0 {
      PagingPairsShape(n - 1);
      var prev := PagingPairs(n - 1);
      assert PagingPairs(n) == prev + [("page", Number(n - 1)), ("page-size", Text(PageSize))];
      forall i | 0 <= i < n
        ensures PagingPairs(n)[2 * i] == ("page", Number(i))
        ensures PagingPairs(n)[2 * i + 1] == ("page-size", Text(PageSize))
      {
        if i < n - 1 {
          assert PagingPairs(n)[2 * i] == prev[2 * i];
          assert PagingPairs(n)[2 * i + 1] == prev[2 * i + 1];
        }
      }
    }
  }

  /**
   * The same query list is extended on every iteration: the query of page k + 1
   * is the query of page k followed by the next two pairs, so page k's query
   * holds 2 * (k + 1) pairs beyond the original ones (their order is
   * PagingPairsShape).
   */
  lemma PageQueryGrowth(original: seq<QueryPair>, k: nat)
    ensures PageQuery(original, k + 1) == PageQuery(original, k) + [("page", Number(k + 1)), ("page-size", Text(PageSize))]
    ensures |PageQuery(original, k)| == |original| + 2 * (k + 1)
  {
    PagingPairsShape(k + 1);
  }

  /** The loop ends over these responses exactly when some page does not go on. */
  lemma {:induction false} TerminatesIffSomePageStops(pages: seq<Response>)
    ensures Terminates(pages) <==> exists k :: 0 <= k < |pages| && !PageStepOf(pages[k]).More?
  {
    if pages != [] {
      TerminatesIffSomePageStops(pages[1..]);
      if exists k :: 0 <= k < |pages| && !PageStepOf(pages[k]).More? {
        var k :| 0 <= k < |pages| && !PageStepOf(pages[k]).More?;
        if k > 0 {
          assert !PageStepOf(pages[1..][k - 1]).More?;
        }
      }
      if Terminates(pages) && PageStepOf(pages[0]).More? {
        var k :| 0 <= k < |pages[1..]| && !PageStepOf(pages[1..][k]).More?;
        assert !PageStepOf(pages[k + 1]).More?;
      }
    }
  }

  /** Collecting two runs of pages one after the other concatenates their objects. */
  lemma {:induction false} CollectedConcat(a: seq<Response>, b: seq<Response>)
    ensures Collected(a + b) == Collected(a) + Collected(b)
    decreases |b|
  {
    if b != [] {
      var b' := b[..|b| - 1];
      CollectedConcat(a, b');
      assert (a + b)[..|a + b| - 1] == a + b';
      assert (a + b)[|a + b| - 1] == b[|b| - 1];
      assert Collected(a + b) == Collected(a + b') + PageItems(b[|b| - 1]);
    } else {
      assert a + b == a;
    }
  }

  /** Responses after the stopping page are never consulted. */
  lemma {:induction false} PagedIgnoresLaterPages(pages: seq<Response>, later: seq<Response>)
    requires Terminates(pages)
    ensures Terminates(pages + later)
    ensures FirstStop(pages + later) == FirstStop(pages)
    ensures PagedOutcome(pages + later) == PagedOutcome(pages)
    decreases |pages|
  {
    if PageStepOf(pages[0]).More? {
      PagedIgnoresLaterPages(pages[1..], later);
      assert (pages + later)[1..] == pages[1..] + later;
    }
    var n := FirstStop(pages);
    assert (pages + later)[..n] == pages[..n];
  }

  /**
   * No partial success: the loop returns collected objects exactly when it
   * stopped on an empty page; on an error page it returns the error alone.
   */
  lemma PagedDataOnlyAtEmptyPage(pages: seq<Response>)
    requires Terminates(pages)
    ensures (PagedOutcome(pages).Returned? && PagedOutcome(pages).value.PagedData?)
            <==> PageStepOf(pages[FirstStop(pages)]).End?
  {
  }

  /**
   * Two full pages followed by an empty one: the result holds both pages'
   * objects, 100000 of them, first page first.
   */
  lemma TwoFullPagesThenEmpty(first: seq<Json>, second: seq<Json>, emptyBody: Json)
    requires |first| == 50000 && |second| == 50000
    requires Field(emptyBody, "imdata") == Some(JArray([]))
    ensures var pages := [Response(200, JObject([("imdata", JArray(first))])),
                          Response(200, JObject([("imdata", JArray(second))])),
                          Response(200, emptyBody)];
            Terminates(pages)
            && PagedOutcome(pages) == Returned(PagedData(first + second))
            && |PagedOutcome(pages).value.items| == 100000
  {
    var p0 := Response(200, JObject([("imdata", JArray(first))]));
    var p1 := Response(200, JObject([("imdata", JArray(second))]));
    var p2 := Response(200, emptyBody);
    var pages := [p0, p1, p2];
    assert Field(p0.body, "imdata") == Some(JArray(first));
    assert Field(p1.body, "imdata") == Some(JArray(second));
    assert PageStepOf(p0) == More(first);
    assert PageStepOf(p1) == More(second);
    assert PageStepOf(p2) == End;
    assert pages[1..][1..] == [p2];
    assert Terminates(pages[1..][1..]);
    assert pages[1..] == [p1, p2];
    assert FirstStop(pages) == 2;
    assert pages[..2] == [p0, p1];
    assert [p0, p1][..1] == [p0];
    assert [p0][..0] == [];
    assert Collected([p0]) == first;
    assert Collected(pages[..2]) == first + second;
  }

  /** The credentials envelope posted to aaaLogin.json. */
  function Credentials(user: string, password: string): Json
  {
    JObject([("aaaUser", JObject([("attributes", JObject([("name", JString(user)), ("pwd", JString(password))]))]))])
  }

  /** The envelope posted to aaaLogout.json: the user name only. */
  function LogoutEnvelope(user: string): Json
  {
    JObject([("aaaUser", JObject([("attributes", JObject([("name", JString(user))]))]))])
  }

  class ACI {
    const apicIp: string
    const apicUser: string
    const apicPassword: string
    const baseUrl: string := "https://" + apicIp + "/api/"
    /** The serialisers, URL helpers and crypto this object calls. */
    const lib: Library

    var session: SessionState
    var token: Json

    constructor (apicIp: string, apicUser: string, apicPassword: string, lib: Library)
      ensures this.apicIp == apicIp && this.apicUser == apicUser && this.apicPassword == apicPassword
      ensures this.lib == lib
      ensures baseUrl == "https://" + apicIp + "/api/"
      ensures session == Unset && token == JNull
    {
      this.apicIp := apicIp;
      this.apicUser := apicUser;
      this.apicPassword := apicPassword;
      this.lib := lib;
      session := Unset;
      token := JNull;
    }

    /** The request for page `k` (counting from 0) of `getJsonPaged(uri)`. */
    function PageRequest(uri: string, k: nat): Request
    {
      var parts := lib.urlparse(baseUrl + uri);
      var query := PageQuery(lib.parseQsl(parts.query), k);
      Request(Get, lib.urlunparse(parts.(query := lib.urlencode(query))), None, map[])
    }

    /** The requests for pages 0..n-1, in order. */
    function PageRequests(uri: string, n: nat): (reqs: seq<Request>)
      ensures |reqs| == n
      ensures forall k :: 0 <= k < n ==> reqs[k] == PageRequest(uri, k)
    {
      if n == 0 then [] else PageRequests(uri, n - 1) + [PageRequest(uri, n - 1)]
    }

    /**
     * login: a 401 answer returns False and leaves the session False; any other
     * error status raises with the session open; otherwise the token is read
     * from the body and True is returned. The token changes only on success.
     */
    method Login(resp: Response) returns (sent: Request, r: Outcome<bool>)
      modifies this
      ensures sent == Request(Post, baseUrl + "aaaLogin.json", Some(lib.dumps(Credentials(apicUser, apicPassword))), map[])
      ensures resp.status == 401 ==> r == Returned(false) && session == Refused && token == old(token)
      ensures resp.status != 401 ==> session == Active
      ensures resp.status != 401 && IsError(resp.status) ==> r == Raised(HttpError(resp.status)) && token == old(token)
      ensures IsOk(resp.status) && TokenAt(resp.body).None? ==> r == Raised(Malformed) && token == old(token)
      ensures IsOk(resp.status) && TokenAt(resp.body).Some? ==> r == Returned(true) && token == TokenAt(resp.body).value
    {
      session := Active;
      var userPass := lib.dumps(Credentials(apicUser, apicPassword));
      sent := Request(Post, baseUrl + "aaaLogin.json", Some(userPass), map[]);
      if resp.status == 401 {
        session := Refused;
        return sent, Returned(false);
      }
      if IsError(resp.status) {
        return sent, Raised(HttpError(resp.status));
      }
      var t := TokenAt(resp.body);
      if t.None? {
        return sent, Raised(Malformed);
      }
      token := t.value;
      r := Returned(true);
    }

    /**
     * logout: posts the user-name envelope to aaaLogout.json through postJson
     * and returns nothing; it raises where postJson raises and changes no field.
     */
    method Logout(resp: Response) returns (sent: Option<Request>, r: Outcome<()>)
      ensures session.Active? <==> sent.Some?
      ensures sent.Some? ==> sent.value == Request(Post, baseUrl + "aaaLogout.json", Some(lib.dumpsSorted(LogoutEnvelope(apicUser))), map[])
      ensures !session.Active? ==> r == Raised(NoSession)
      ensures session.Active? && IsOk(resp.status) ==> r == Returned(())
      ensures session.Active? && resp.status == 400 ==>
        r == (if ErrorTextAt(resp.body).Some? && ErrorTextAt(resp.body).value.JString? then Returned(()) else Raised(Malformed))
      ensures session.Active? && resp.status != 400 && IsError(resp.status) ==> r == Raised(HttpError(resp.status))
    {
      var posted;
      sent, posted := PostJson(LogoutEnvelope(apicUser), "aaaLogout.json", resp);
      match posted
      case Returned(_) => r := Returned(());
      case Raised(e) => r := Raised(e);
    }

    /**
     * renewCookie: posts to aaaRefresh.json without a body; an error status
     * raises and leaves the token untouched; otherwise the token is replaced
     * by the body's token and True is returned.
     */
    method RenewCookie(resp: Response) returns (sent: Option<Request>, r: Outcome<bool>)
      modifies this`token
      ensures session.Active? <==> sent.Some?
      ensures sent.Some? ==> sent.value == Request(Post, baseUrl + "aaaRefresh.json", None, map[])
      ensures !session.Active? ==> r == Raised(NoSession) && token == old(token)
      ensures session.Active? && IsError(resp.status) ==> r == Raised(HttpError(resp.status)) && token == old(token)
      ensures session.Active? && IsOk(resp.status) && TokenAt(resp.body).None? ==> r == Raised(Malformed) && token == old(token)
      ensures session.Active? && IsOk(resp.status) && TokenAt(resp.body).Some? ==> r == Returned(true) && token == TokenAt(resp.body).value
    {
      if !session.Active? {
        return None, Raised(NoSession);
      }
      sent := Some(Request(Post, baseUrl + "aaaRefresh.json", None, map[]));
      if IsError(resp.status) {
        return sent, Raised(HttpError(resp.status));
      }
      var t := TokenAt(resp.body);
      if t.None? {
        return sent, Raised(Malformed);
      }
      token := t.value;
      r := Returned(true);
    }

    /** getToken: the token the last successful login or renewal stored; null before any. */
    method GetToken() returns (t: Json)
      ensures t == token
    {
      t := token;
    }

    /**
     * getJson: a non-error status returns `imdata` (or `subscriptionId`, with
     * `?subscription=yes` on the URL); a 400 with the dataset-too-big text
     * returns getJsonPaged's result; any other 400 returns the bare error text;
     * any other error status returns the decoded body.
     */
    method GetJson(uri: string, subscription: bool, resp: Response, pages: seq<Response>)
        returns (sent: seq<Request>, r: Outcome<GetReply>)
      requires session.Active? && resp.status == 400 && ErrorTextAt(resp.body) == Some(JString(TooBigText)) ==> Terminates(pages)
      ensures !session.Active? ==> sent == [] && r == Raised(NoSession)
      ensures session.Active? ==>
        && |sent| >= 1
        && sent[0] == Request(Get, baseUrl + uri + (if subscription then "?subscription=yes" else ""), None, map[])
      ensures session.Active? && IsOk(resp.status) ==>
        && |sent| == 1
        && (var key := if subscription then "subscriptionId" else "imdata";
            match Field(resp.body, key)
            case None => r == Raised(Malformed)
            case Some(v) => r == Returned(if subscription then SubscriptionId(v) else Objects(v)))
      ensures session.Active? && resp.status == 400 && ErrorTextAt(resp.body) == Some(JString(TooBigText)) ==>
        && sent == [sent[0]] + PageRequests(uri, FirstStop(pages) + 1)
        && r == match PagedOutcome(pages) case Returned(p) => Returned(Paged(p)) case Raised(e) => Raised(e)
      ensures (session.Active? && resp.status == 400 && ErrorTextAt(resp.body).Some?
               && ErrorTextAt(resp.body) != Some(JString(TooBigText))) ==>
        |sent| == 1 && r == Returned(ErrorText(ErrorTextAt(resp.body).value))
      ensures session.Active? && resp.status == 400 && ErrorTextAt(resp.body).None? ==> |sent| == 1 && r == Raised(Malformed)
      ensures session.Active? && IsError(resp.status) && resp.status != 400 ==> |sent| == 1 && r == Returned(RawBody(resp.body))
    {
      var url := baseUrl + uri;
      if subscription {
        url := url + "?subscription=yes";
      }
      if !session.Active? {
        return [], Raised(NoSession);
      }
      sent := [Request(Get, url, None, map[])];
      if IsOk(resp.status) {
        if subscription {
          var id := Field(resp.body, "subscriptionId");
          r := if id.Some? then Returned(SubscriptionId(id.value)) else Raised(Malformed);
        } else {
          var data := Field(resp.body, "imdata");
          r := if data.Some? then Returned(Objects(data.value)) else Raised(Malformed);
        }
      } else if resp.status == 400 {
        var text := ErrorTextAt(resp.body);
        if text.None? {
          return sent, Raised(Malformed);
        }
        if text.value == JString(TooBigText) {
          var pagedSent, paged := GetJsonPaged(uri, pages);
          sent := sent + pagedSent;
          r := match paged case Returned(p) => Returned(Paged(p)) case Raised(e) => Raised(e);
        } else {
          r := Returned(ErrorText(text.value));
        }
      } else {
        r := Returned(RawBody(resp.body));
      }
    }

    /**
     * getJsonPaged: requests pages 0, 1, 2, ... of `uri`, each query carrying
     * the original pairs followed by every paging pair appended so far, and
     * collects the objects of every page until the first empty page; a 400
     * returns "400: " + text and any other error returns False, dropping what
     * was collected.
     */
    method GetJsonPaged(uri: string, pages: seq<Response>) returns (sent: seq<Request>, r: Outcome<PagedReply>)
      requires session.Active? ==> Terminates(pages)
      ensures !session.Active? ==> sent == [] && r == Raised(NoSession)
      ensures session.Active? ==> r == PagedOutcome(pages)
      ensures session.Active? ==> sent == PageRequests(uri, FirstStop(pages) + 1)
    {
      var url := baseUrl + uri;
      var parsedUrl := lib.urlparse(url);
      var parsedQuery := lib.parseQsl(parsedUrl.query);
      var returnData: seq<Json> := [];
      var page: nat := 0;
      if !session.Active? {
        // the first `self.session.get` raises before any request goes out
        return [], Raised(NoSession);
      }
      sent := [];
      ghost var stop := FirstStop(pages);
      while true
        invariant page <= stop < |pages|
        invariant parsedQuery == lib.parseQsl(parsedUrl.query) + PagingPairs(page)
        invariant sent == PageRequests(uri, page)
        invariant returnData == Collected(pages[..page])
        decreases stop - page
      {
        parsedQuery := parsedQuery + [("page", Number(page)), ("page-size", Text(PageSize))];
        page := page + 1;
        assert parsedQuery == PageQuery(lib.parseQsl(parsedUrl.query), page - 1);
        var urlToCall := lib.urlunparse(parsedUrl.(query := lib.urlencode(parsedQuery)));
        sent := sent + [Request(Get, urlToCall, None, map[])];
        var step := PageStepOf(pages[page - 1]);
        if step.More? {
          assert page - 1 < stop by {
            assert !PageStepOf(pages[stop]).More?;
          }
          CollectedStep(pages, page - 1);
          returnData := returnData + step.items;
        } else {
          assert page - 1 == stop;
          if step.End? {
            return sent, Returned(PagedData(returnData));
          }
          return sent, step.result;
        }
      }
    }

    /**
     * postJson: sends the sorted-key serialisation of `jsonData` to `url`;
     * 200 returns 200; 400 returns "400: " + the error text; any other error
     * status raises; any other status is returned as it is.
     */
    method PostJson(jsonData: Json, url: string, resp: Response) returns (sent: Option<Request>, r: Outcome<PostReply>)
      ensures session.Active? <==> sent.Some?
      ensures sent.Some? ==> sent.value == Request(Post, baseUrl + url, Some(lib.dumpsSorted(jsonData)), map[])
      ensures !session.Active? ==> r == Raised(NoSession)
      ensures session.Active? && resp.status == 200 ==> r == Returned(Posted(200))
      ensures session.Active? && resp.status == 400 ==>
        match ErrorTextAt(resp.body)
        case Some(JString(text)) => r == Returned(Rejected("400: " + text))
        case _ => r == Raised(Malformed)
      ensures session.Active? && resp.status != 400 && IsError(resp.status) ==> r == Raised(HttpError(resp.status))
      ensures session.Active? && resp.status != 200 && IsOk(resp.status) ==> r == Returned(Posted(resp.status))
    {
      if !session.Active? {
        return None, Raised(NoSession);
      }
      sent := Some(Request(Post, baseUrl + url, Some(lib.dumpsSorted(jsonData)), map[]));
      if resp.status == 200 {
        r := Returned(Posted(resp.status));
      } else if resp.status == 400 {
        var text := ErrorTextAt(resp.body);
        if text.Some? && text.value.JString? {
          r := Returned(Rejected("400: " + text.value.s));
        } else {
          r := Raised(Malformed);
        }
      } else if IsError(resp.status) {
        r := Raised(HttpError(resp.status));
      } else {
        r := Returned(Posted(resp.status));
      }
    }

    /** deleteMo: deletes `mo/<dn>.json`; an error status raises, otherwise the status is returned. */
    method DeleteMo(dn: string, resp: Response) returns (sent: Option<Request>, r: Outcome<int>)
      ensures session.Active? <==> sent.Some?
      ensures sent.Some? ==> sent.value == Request(Delete, baseUrl + "mo/" + dn + ".json", None, map[])
      ensures !session.Active? ==> r == Raised(NoSession)
      ensures session.Active? && IsError(resp.status) ==> r == Raised(HttpError(resp.status))
      ensures session.Active? && IsOk(resp.status) ==> r == Returned(resp.status)
    {
      if !session.Active? {
        return None, Raised(NoSession);
      }
      sent := Some(Request(Delete, baseUrl + "mo/" + dn + ".json", None, map[]));
      if IsError(resp.status) {
        r := Raised(HttpError(resp.status));
      } else {
        r := Returned(resp.status);
      }
    }
  }
}
