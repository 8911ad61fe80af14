/**
 * Clients of the password session that replay the situations of
 * test/test_aci.py against mocked responses, using only the contracts of
 * `ACI`. Each `assert` is what the corresponding test checks.
 */
module Scenarios {
  import opened JsonValue
  import opened Http
  import opened Foreign
  import opened PasswordSession

  const Apic: string := "testing-apic.ncdev.ch"

  /** `{'imdata': [{'aaaLogin': {'attributes': {'token': t}}}]}` */
  function LoginBody(t: string): Json
  {
    Envelope("aaaLogin", "token", JString(t))
  }

  /** `{'imdata': [{'error': {'attributes': {'text': t}}}]}` */
  function ErrorBody(t: string): Json
  {
    Envelope("error", "text", JString(t))
  }

  /** test_login_ok and test_token_ok: the token read back is the one in the login body. */
  method TokenAfterLogin(lib: Library)
  {
    var aci := new ACI(Apic, "admin", "unkown", lib);
    EnvelopeRoundTrip("aaaLogin", "token", JString("tokenxyz"));
    var sent, ok := aci.Login(Response(200, LoginBody("tokenxyz")));
    assert ok == Returned(true);
    assert sent.url == "https://" + Apic + "/api/" + "aaaLogin.json";
    var token := aci.GetToken();
    assert token == JString("tokenxyz");
  }

  /** test_login_401: False, no exception, and still no token. */
  method LoginRefused(lib: Library)
  {
    var aci := new ACI(Apic, "admin", "unkown", lib);
    var _, ok := aci.Login(Response(401, JObject([("status_code", JNumber(401)), ("text", JString("not allowed"))])));
    assert ok == Returned(false);
    assert aci.session == Refused && aci.token == JNull;
  }

  /** test_login_404_exception: a 404 raises. */
  method LoginNotFound(lib: Library)
  {
    var aci := new ACI(Apic, "admin", "unkown", lib);
    var _, ok := aci.Login(Response(404, JObject([("status_code", JNumber(404)), ("text", JString("Not Found"))])));
    assert ok == Raised(HttpError(404));
    assert aci.token == JNull;
  }

  /** test_renew_cookie_ok and test_renew_cookie_exception. */
  method RenewAfterLogin(lib: Library)
  {
    var aci := new ACI(Apic, "admin", "unkown", lib);
    EnvelopeRoundTrip("aaaLogin", "token", JString("tokenxyz"));
    EnvelopeRoundTrip("aaaLogin", "token", JString("renewed"));
    var _, ok := aci.Login(Response(200, LoginBody("tokenxyz")));
    var sent, renewed := aci.RenewCookie(Response(200, LoginBody("renewed")));
    assert renewed == Returned(true) && aci.token == JString("renewed");
    sent, renewed := aci.RenewCookie(Response(401, JObject([("status_code", JNumber(401))])));
    assert renewed == Raised(HttpError(401)) && aci.token == JString("renewed");
  }

  /** test_get_tenant_not_found and the 400 handling of getJson. */
  method GetErrors(lib: Library)
  {
    var aci := new ACI(Apic, "admin", "unkown", lib);
    EnvelopeRoundTrip("aaaLogin", "token", JString("tokenxyz"));
    EnvelopeRoundTrip("error", "text", JString("bad class"));
    var _, ok := aci.Login(Response(200, LoginBody("tokenxyz")));
    var notFound := JObject([("error", JString("Not found"))]);
    var sent, got := aci.GetJson("mo/uni/tn-commmmmon.json", false, Response(404, notFound), []);
    assert got == Returned(RawBody(notFound));
    sent, got := aci.GetJson("class/fvBD.json", false, Response(400, ErrorBody("bad class")), []);
    assert got == Returned(ErrorText(JString("bad class")));
  }

  /** test_post_tenant_ok, test_post_tenant_bad_request and test_post_tenant_forbidden_exception. */
  method PostOutcomes(lib: Library, postData: Json)
  {
    var aci := new ACI(Apic, "admin", "unkown", lib);
    EnvelopeRoundTrip("aaaLogin", "token", JString("tokenxyz"));
    EnvelopeRoundTrip("error", "text", JString("tokenxyz"));
    var _, ok := aci.Login(Response(200, LoginBody("tokenxyz")));
    var sent, posted := aci.PostJson(postData, "mo.json", Response(200, JObject([("imdata", postData)])));
    assert posted == Returned(Posted(200));
    sent, posted := aci.PostJson(postData, "mo.json", Response(400, ErrorBody("tokenxyz")));
    assert posted == Returned(Rejected("400: " + "tokenxyz"));
    assert posted.value.text[..5] == "400: ";
    sent, posted := aci.PostJson(postData, "mo.json", Response(403, ErrorBody("tokenxyz")));
    assert posted == Raised(HttpError(403));
  }
}
