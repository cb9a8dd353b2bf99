/**
 * The requests the app hands to Volley: a JSON object body posted to the
 * collection endpoint with a `Content-Type: application/json` header. The
 * response and error listeners attached to every request are empty, so the
 * model has no response path: a request is a value appended to an outbox.
 */
module Http {

  datatype JsonValue = JNumber(n: int) | JString(s: string)

  type JsonObject = map<string, JsonValue>

  datatype Request = Request(httpMethod: string, url: string, headers: map<string, string>, body: JsonObject)

  const Endpoint := "https://tesibe.swipeapp.studio/sample/tesi"

  const JsonHeaders: map<string, string> := map["Content-Type" := "application/json"]

  /** A `JsonObjectRequest(Request.Method.POST, url, json, ...)` whose `getHeaders` is overridden. */
  function JsonPost(body: JsonObject): (r: Request)
    ensures IsJsonPost(r) && r.body == body
  {
    Request("POST", Endpoint, JsonHeaders, body)
  }

  predicate IsJsonPost(r: Request) {
    r.httpMethod == "POST" && r.url == Endpoint && r.headers == JsonHeaders
  }
}
