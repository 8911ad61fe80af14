/**
 * Code the client calls but does not define: JSON serialisation, URL
 * splitting and encoding, RSA signing and base64. Each is an uninterpreted
 * total function; the model only ever relates their inputs.
 */
module Foreign {
  import opened JsonValue

  /** A private key as loaded from its PEM file. */
  datatype PrivateKey = PrivateKey(pem: seq<bv8>)

  /** The six fields `urlparse` yields and `urlunparse` joins. */
  datatype UrlParts = UrlParts(scheme: string, netloc: string, path: string,
                               params: string, query: string, fragment: string)

  /** A query value: `parse_qsl` yields strings, the paginator appends an int page number. */
  datatype QueryValue = Text(s: string) | Number(n: int)

  type QueryPair = (string, QueryValue)

  datatype Library = Library(
    dumps: Json -> string,          // json.dumps(x): insertion order
    dumpsSorted: Json -> string,    // json.dumps(x, sort_keys=True)
    urlparse: string -> UrlParts,
    parseQsl: string -> seq<QueryPair>,
    urlencode: seq<QueryPair> -> string,
    urlunparse: UrlParts -> string,
    sign: (PrivateKey, string, string) -> seq<bv8>,  // crypto.sign(key, content, digest)
    b64encode: seq<bv8> -> string)
}
