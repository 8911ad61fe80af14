/**
 * An abstract JSON document, as `response.json()` and `json.dumps` see it.
 * Objects keep their members in insertion order (Python dictionaries are
 * ordered); a key bound twice is read through its last binding, as
 * `json.loads` does.
 */
module JsonValue {
  import opened Wrappers

  datatype Json =
    | JNull
    | JBool(b: bool)
    | JNumber(n: int)
    | JString(s: string)
    | JArray(items: seq<Json>)
    | JObject(members: seq<(string, Json)>)

  /** One step of a subscript chain such as `body['imdata'][0]`. */
  datatype Step = Key(name: string) | Pos(index: nat)

  /** Dictionary lookup: the value of the last member named `key`, if any. */
  function Lookup(members: seq<(string, Json)>, key: string): (r: Option<Json>)
    ensures r.None? <==> forall i :: 0 <= i < |members| ==> members[i].0 != key
    ensures r.Some? ==> exists i :: 0 <= i < |members| && members[i] == (key, r.value)
                                   && forall j :: i < j < |members| ==> members[j].0 != key
  {
    if members == [] then None
    else if members[|members| - 1].0 == key then Some(members[|members| - 1].1)
    else Lookup(members[..|members| - 1], key)
  }

  /** `j[key]`: fails (KeyError, TypeError) unless `j` is an object binding `key`. */
  function Field(j: Json, key: string): Option<Json>
  {
    if j.JObject? then Lookup(j.members, key) else None
  }

  /**
   * `j[i]` on a list: None unless `j` is a long enough list. Python would
   * also index a string, but every chain here follows an index with a key
   * subscript, which raises TypeError on a character just as on a miss.
   */
  function Index(j: Json, i: nat): Option<Json>
  {
    if j.JArray? && i < |j.items| then Some(j.items[i]) else None
  }

  /** Follows a subscript chain; None as soon as one subscript would raise. */
  function Path(j: Json, steps: seq<Step>): Option<Json>
    decreases |steps|
  {
    if steps == [] then Some(j)
    else
      var next := match steps[0]
        case Key(k) => Field(j, k)
        case Pos(i) => Index(j, i);
      if next.None? then None else Path(next.value, steps[1..])
  }

  /** Python truthiness of a decoded JSON value (`if responseJson['imdata']:`). */
  predicate Truthy(j: Json)
  {
    match j
    case JNull => false
    case JBool(b) => b
    case JNumber(n) => n != 0
    case JString(s) => s != ""
    case JArray(items) => items != []
    case JObject(members) => members != []
  }

  /** `body['imdata'][0]['aaaLogin']['attributes']['token']` */
  function TokenAt(body: Json): Option<Json>
  {
    Path(body, [Key("imdata"), Pos(0), Key("aaaLogin"), Key("attributes"), Key("token")])
  }

  /** `body['imdata'][0]['error']['attributes']['text']` */
  function ErrorTextAt(body: Json): Option<Json>
  {
    Path(body, [Key("imdata"), Pos(0), Key("error"), Key("attributes"), Key("text")])
  }

  /** The controller's envelope `{"imdata": [{<cls>: {"attributes": {<name>: <value>}}}]}`. */
  function Envelope(cls: string, name: string, value: Json): Json
  {
    JObject([("imdata", JArray([JObject([(cls, JObject([("attributes", JObject([(name, value)]))]))])]))])
  }

  /** Reading a path back out of the envelope that was built around it. */
  lemma EnvelopeRoundTrip(cls: string, name: string, value: Json)
    ensures Path(Envelope(cls, name, value), [Key("imdata"), Pos(0), Key(cls), Key("attributes"), Key(name)]) == Some(value)
  {
    var e := Envelope(cls, name, value);
    var inner := JObject([(name, value)]);
    var mo := JObject([(cls, JObject([("attributes", inner)]))]);
    assert Field(e, "imdata") == Some(JArray([mo]));
    assert Index(JArray([mo]), 0) == Some(mo);
    assert Field(mo, cls) == Some(JObject([("attributes", inner)]));
    assert Field(JObject([("attributes", inner)]), "attributes") == Some(inner);
    assert Field(inner, name) == Some(value);
    var steps := [Key("imdata"), Pos(0), Key(cls), Key("attributes"), Key(name)];
    assert steps[1..] == [Pos(0), Key(cls), Key("attributes"), Key(name)];
    assert steps[2..] == [Key(cls), Key("attributes"), Key(name)];
    assert steps[3..] == [Key("attributes"), Key(name)];
    assert steps[4..] == [Key(name)];
    assert Path(value, steps[5..]) == Some(value);
    assert Path(inner, steps[4..]) == Some(value);
    assert Path(JObject([("attributes", inner)]), steps[3..]) == Some(value);
    assert Path(mo, steps[2..]) == Some(value);
    assert Path(JArray([mo]), steps[1..]) == Some(value);
  }
}
