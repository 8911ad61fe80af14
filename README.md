# aciClient decision layer in Dafny

This project models the two session classes of aciClient, a small Python client for the
REST API of a Cisco APIC controller:

- `ACI` (aciClient/aci.py) is the username/password session. It logs in, renews its cookie,
  reads, writes and deletes managed objects, and falls back to paginated fetching when the
  controller reports that a result set is too big.
- `ACICert` (aciClient/aciCertClient.py) is the certificate session. It signs every request
  on its own: it builds a content string, signs it, and attaches four certificate cookies.

The model never performs I/O. Each controller answer is a value passed in: a status code and
a decoded JSON body (`Http.Response`). Each operation returns the request or requests it
would hand to the transport, so URLs, bodies and cookies are stated exactly. Foreign code
appears as the uninterpreted total functions of `Foreign.Library`:

- `json.dumps` with insertion order (`dumps`) and with `sort_keys=True` (`dumpsSorted`)
- `urlparse`, `parse_qsl`, `urlencode` and `urlunparse`
- `crypto.sign` and `base64.b64encode`

Python's mixed return types become tagged values. `Outcome` is either `Returned(value)` or
`Raised(fault)`. The faults are:

- `HttpError(status)`: `raise_for_status`, for 400 ≤ status < 600. `response.ok` is its negation.
- `Malformed`: a `KeyError`, `IndexError` or `TypeError` while reading the body.
- `NoSession`: an `AttributeError` because `self.session` is still None, or is False after a
  refused login.

Modules:

- `JsonValue` (json.dfy): JSON values, dictionary lookup (the last binding wins), subscript
  chains, and Python truthiness.
- `Http` (http.dfy): verbs, requests, responses, faults and outcomes.
- `Foreign` (foreign.dfy): the library record, URL parts and query pairs.
- `PasswordSession` (aci.dfy): class `ACI`. Its fields `session` and `token` are assigned by
  `Login` and `RenewCookie`. `GetJsonPaged` is a `while` loop proved against the
  loop-free specification `PagedOutcome`.
- `CertSession` (aci_cert.dfy): `ACICert` as a value. Its operations are functions, with
  lemmas relating the URL, the signed content and the transmitted body.
- `Scenarios` (scenarios.dfy): clients that replay the situations of test/test_aci.py using
  only the contracts of `ACI`.

Some behaviour is absent from aciClient/aci.py and aciClient/aciCertClient.py and is
therefore not modelled:

- a background refresh timer or auto-refresh flag
- clearing the token when a refresh fails: the code's `renewCookie` leaves it untouched
- a `snapshot` helper
- subscription refresh
- paginated fetching for certificate sessions

In the certificate session's `postJson`, the branch that returns `(status, text)` is
reachable. Any non-error status other than 200 (201, for instance) gets past
`raise_for_status` and lands there, and the model keeps it.

## Model

| member | source | states |
|---|---|---|
| `JsonValue.Lookup` | aciClient/aci.py:66 | A dictionary subscript finds a key exactly when some member has that key, and yields the value of the last such member. |
| `JsonValue.EnvelopeRoundTrip` | aciClient/aci.py:66 | The path `imdata[0].<cls>.attributes.<name>` reads back exactly the value that the controller's envelope was built around. |
| `PasswordSession.FirstStop` | aciClient/aci.py:142-164 | The first page that ends the loop: every earlier page is a non-empty list. |
| `PasswordSession.PagingPairsShape` | aciClient/aci.py:143 | After n pages the appended pairs are exactly (page, i), (page-size, "50000") for i = 0..n-1, two per page, in order. |
| `PasswordSession.PageQueryGrowth` | aciClient/aci.py:136-146 | Page k+1's query is page k's query followed by exactly the next two pairs, (page, k+1) and (page-size, "50000"), so page k's query has 2(k+1) pairs beyond the URL's own. |
| `PasswordSession.TerminatesIffSomePageStops` | aciClient/aci.py:142-164 | The loop over the given responses ends if and only if some page is empty, is an error, or is unreadable. |
| `PasswordSession.CollectedStep` | aciClient/aci.py:152-153 | Taking one more page appends exactly that page's objects to what was collected. |
| `PasswordSession.CollectedConcat` | aciClient/aci.py:153 | Collecting two runs of pages one after another gives the concatenation of their objects, in page order. |
| `PasswordSession.PagedIgnoresLaterPages` | aciClient/aci.py:154-155 | Responses after the stopping page are never consulted: appending more pages changes neither the stop index nor the result. |
| `PasswordSession.PagedDataOnlyAtEmptyPage` | aciClient/aci.py:149-164 | No partial success. Collected data is returned exactly when the loop stopped on an empty page. A 400, another error or an unreadable page returns only the error and drops the data. |
| `PasswordSession.TwoFullPagesThenEmpty` | aciClient/aci.py:139-155 | Two pages of 50000 objects followed by an empty page give all 100000 objects, first page first. |
| `PasswordSession.ACI.constructor` | aciClient/aci.py:30-40 | The base URL is `https://<apicIp>/api/`. `session` and `token` start as None. |
| `PasswordSession.ACI.PageRequests` | aciClient/aci.py:143-147 | Page k's request is a GET of `urlunparse` of the original URL with `urlencode` of page k's query, for pages 0..n-1 in order. |
| `PasswordSession.ACI.Login` | aciClient/aci.py:45-68 | Posts the raw-serialised credentials to aaaLogin.json. On 401 it returns False, sets `session` to False and leaves `token` unchanged. On any other error status it raises with the session open and `token` unchanged. Otherwise it stores `imdata[0].aaaLogin.attributes.token` and returns True. |
| `PasswordSession.ACI.Logout` | aciClient/aci.py:73-75 | Posts the sorted serialisation of `{aaaUser: {attributes: {name}}}` to aaaLogout.json through postJson. It raises where postJson raises, otherwise returns nothing, and changes no field. |
| `PasswordSession.ACI.RenewCookie` | aciClient/aci.py:80-89 | Posts to aaaRefresh.json without a body. An error status raises and leaves `token` untouched. Otherwise `token` becomes the body's token and it returns True. |
| `PasswordSession.ACI.GetToken` | aciClient/aci.py:94-96 | Returns the stored token: None on a fresh object, and after a successful login the login body's token. |
| `PasswordSession.ACI.GetJson` | aciClient/aci.py:101-128 | GETs `baseUrl + uri`, with `?subscription=yes` when asked. A non-error status returns `imdata`, or `subscriptionId` when subscribing. A 400 with exactly the "dataset is too big" text returns `getJsonPaged(uri)` after its page requests. Any other 400 returns the bare text, without a "400: " prefix. Any other error returns the body. |
| `PasswordSession.ACI.GetJsonPaged` | aciClient/aci.py:133-164 | The loop sends page requests 0..n, where n is the first stopping page, and its result equals `PagedOutcome`: the objects of every page before the first empty page, in order. A 400 gives "400: " + text and any other error gives False, with collected data dropped. |
| `PasswordSession.ACI.PostJson` | aciClient/aci.py:169-182 | Sends the sorted-key body to `baseUrl + url`. Status 200 returns 200. A 400 returns "400: " + text. Other statuses from 400 to 599 raise. Any other status is returned unchanged. |
| `PasswordSession.ACI.DeleteMo` | aciClient/aci.py:187-194 | DELETEs `baseUrl + "mo/" + dn + ".json"`. An error status raises; otherwise the status is returned. |
| `CertSession.Init` | aciClient/aciCertClient.py:26-32 | The base URL is `https://<apicIp>/api/`, and the key and certificate DN are kept. |
| `CertSession.PackCookies` | aciClient/aciCertClient.py:37-43 | Exactly four cookies: fingerprint "fingerprint", algorithm "v1.0", the certificate DN, and base64 of the SHA-256 signature of the content. |
| `CertSession.GetJson` | aciClient/aciCertClient.py:48-59 | Sends a GET of `baseUrl + uri`, signed over "GET/api/" + uri. Any status from 400 to 599 raises before anything is returned. Otherwise it returns `imdata`. |
| `CertSession.PostJson` | aciClient/aciCertClient.py:64-80 | Any error status raises first. Status 200 returns 200. Any other status, such as 201, returns the pair (status, `imdata[0].error.attributes.text`). |
| `CertSession.DeleteMo` | aciClient/aciCertClient.py:85-95 | Sends a DELETE of `mo/<dn>.json`, signed over "DELETE/api/mo/<dn>.json". It raises if and only if the status is an error, and otherwise returns the status. |
| `CertSession.GetSignsVerbAndPath` | aciClient/aciCertClient.py:49-52 | The URL starts with `https://<apicIp>`. The signed content is "GET" followed by the rest of the URL. |
| `CertSession.DeleteSignsVerbAndPath` | aciClient/aciCertClient.py:87-90 | The URL starts with `https://<apicIp>`. The signed content is "DELETE" followed by the rest of the URL. |
| `CertSession.PostSignsUnsortedBody` | aciClient/aciCertClient.py:65-70 | The URL is always `baseUrl + "mo.json"` and the body sent is the sorted serialisation. The signature covers "POST" + path + the insertion-order serialisation. That content equals "POST" + path + the transmitted body exactly when the two serialisations agree. |

## Left out

- HTTP transport: `requests.Session`, `requests.get/post/delete`, `verify=False`, the
  5-second login timeout and the suppressed certificate warnings are foreign I/O. Responses
  are parameters instead.
- JSON serialisation and decoding are foreign code. The two `json.dumps` forms are
  uninterpreted functions. A body is always decoded JSON, so a response whose body fails to
  decode (which would raise inside `response.json()`) is not represented.
- JSON numbers are integers; floating point is not modelled.
- URL parsing and percent-encoding (`urlparse`, `parse_qsl`, `urlencode`, `urlunparse`) are
  uninterpreted functions. Query pairs stay a sequence of key/value pairs.
- Cryptography and the key file: `crypto.sign`, `base64.b64encode`, reading the PEM file and
  `crypto.load_privatekey`. These are foreign code and file I/O. `ACICert` holds the already
  loaded key.
- Logging calls have no effect other than the `response.json()` evaluated inside the
  messages at aciClient/aci.py:163, 173 and 180 and aciClient/aciCertClient.py:76. On those
  paths that is the only decode of the body, and its failure is left out with decoding
  above. `response.text` is used only in log messages.
- examples/subscription.py (websocket and thread glue), setup.py (packaging) and the request
  mocks of test/test_aci.py are not part of this model. `Scenarios` restates the tests'
  expectations as assertions.
- PasswordSession.ACI.GetJsonPaged: a truthy `imdata` that is not a list is treated as an
  unreadable body (`Malformed`). Python would instead extend the collected data with a
  string's characters or an object's keys; the controller always sends a list.
- PasswordSession.ACI.GetJsonPaged: the page responses are a finite sequence, and the
  method requires that one of them stops the loop. If the controller never answered with an
  empty page or an error, the source would loop forever, and that run is not modelled.
- PasswordSession.ACI.GetJson: requires a stopping page only when the 400
  "dataset is too big" fallback is taken, for the same reason.
