/**
 * The two pure helpers of `BaseAPIClient` (src/public_record/base.py): the request
 * headers and the request URL. The client's fields are set once by its constructor
 * and never updated, so the client is a value.
 */
module Base {
  import opened Wrappers

  /** A JSON-compatible value, the `Any` of `Dict[str, Any]`. */
  datatype Json =
    | JNull
    | JBool(b: bool)
    | JNum(n: int)
    | JStr(s: string)
    | JArr(items: seq<Json>)
    | JObj(fields: map<string, Json>)

  /** A response or result dictionary. */
  type Payload = map<string, Json>

  /** Python truthiness of an `Optional[str]`: neither `None` nor `""`. */
  predicate Present(o: Option<string>) {
    o.Some? && o.value != ""
  }

  /** The fields `BaseAPIClient.__init__` sets; the HTTP session is not modelled. */
  datatype BaseClient = BaseClient(apiKey: Option<string>, baseUrl: Option<string>)

  /** An insertion-ordered header dictionary. */
  type Headers = seq<(string, string)>

  /** The keys of an insertion-ordered dictionary, in insertion order. */
  function Names<V>(h: seq<(string, V)>): (r: seq<string>)
    ensures |r| == |h|
    ensures forall i :: 0 <= i < |h| ==> r[i] == h[i].0
  {
    if h == [] then [] else [h[0].0] + Names(h[1..])
  }

  /** `headers.get(name)`: the value of the first entry with that name. */
  function Lookup(h: Headers, name: string): (r: Option<string>)
    ensures r.None? <==> name !in Names(h)
    ensures r.Some? ==> (name, r.value) in h
    ensures forall i :: 0 <= i < |h| && h[i].0 == name && (forall j :: 0 <= j < i ==> h[j].0 != name) ==> r == Some(h[i].1)
  {
    if h == [] then None
    else if h[0].0 == name then Some(h[0].1)
    else Lookup(h[1..], name)
  }

  const JsonMediaType := "application/json"

  /**
   * `_get_headers`: the two JSON headers, then `Authorization: Bearer <key>` only when
   * the client has a non-empty API key. No other header is ever added.
   */
  method GetHeaders(client: BaseClient) returns (headers: Headers)
    ensures Names(headers) ==
      if Present(client.apiKey) then ["Content-Type", "Accept", "Authorization"]
      else ["Content-Type", "Accept"]
    ensures Lookup(headers, "Content-Type") == Some(JsonMediaType)
    ensures Lookup(headers, "Accept") == Some(JsonMediaType)
    ensures Lookup(headers, "Authorization") ==
      if Present(client.apiKey) then Some("Bearer " + client.apiKey.value) else None
  {
    headers := [("Content-Type", JsonMediaType), ("Accept", JsonMediaType)];
    if Present(client.apiKey) {
      headers := headers + [("Authorization", "Bearer " + client.apiKey.value)];
    }
  }

  /**
   * The URL `_make_request` sends to: the endpoint appended to the base URL with one
   * `/` between them when the base URL is non-empty, the endpoint alone otherwise.
   */
  function RequestUrl(client: BaseClient, endpoint: string): (url: string)
    ensures Present(client.baseUrl) ==>
      var b := client.baseUrl.value;
      |url| == |b| + 1 + |endpoint| && url[..|b|] == b && url[|b|] == '/' && url[|b| + 1..] == endpoint
    ensures !Present(client.baseUrl) ==> url == endpoint
  {
    if Present(client.baseUrl) then client.baseUrl.value + "/" + endpoint else endpoint
  }

  /** Two endpoints of one client never share a URL: the endpoint can be read back. */
  lemma RequestUrlInjective(client: BaseClient, e1: string, e2: string)
    requires RequestUrl(client, e1) == RequestUrl(client, e2)
    ensures e1 == e2
  {

  }
}
