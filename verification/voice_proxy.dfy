/**
 * The `POST` handler of app/api/voice-agent/route.ts: it forwards the prompt
 * to a hosted text-generation model and picks the generated text out of the
 * model's reply. The environment variable, the outgoing `fetch` and the
 * parsing of its reply are parameters.
 */
module VoiceProxy {
  import opened Wrappers

  /** A parsed JSON value. */
  datatype Json =
    | JNull
    | JBool(b: bool)
    | JNumber(n: real)
    | JString(s: string)
    | JArray(items: seq<Json>)
    | JObject(fields: map<string, Json>)

  /** JavaScript truthiness; `None` stands for `undefined`. */
  predicate Truthy(v: Option<Json>) {
    match v
    case None => false
    case Some(JNull) => false
    case Some(JBool(b)) => b
    case Some(JNumber(n)) => n != 0.0
    case Some(JString(s)) => s != ""
    case Some(_) => true
  }

  /** `v?.name`: of the values JSON can produce, only objects have a property of that name. */
  function Property(v: Option<Json>, name: string): (r: Option<Json>)
    ensures r.Some? <==> v.Some? && v.value.JObject? && name in v.value.fields
    ensures r.Some? ==> r.value == v.value.fields[name]
  {
    if v.Some? && v.value.JObject? && name in v.value.fields then Some(v.value.fields[name]) else None
  }

  /** `data[0]` of an array; `undefined` when it is empty. */
  function First(items: seq<Json>): Option<Json> {
    if |items| > 0 then Some(items[0]) else None
  }

  const ModelUrl := "https://api-inference.huggingface.co/models/google/flan-t5-base"
  const MaxNewTokens: real := 50.0
  const Fallback := "Lo siento, no tengo una respuesta."

  /** The request sent to the model. */
  datatype UpstreamRequest = UpstreamRequest(url: string, httpMethod: string, headers: map<string, string>, body: Json)

  /**
   * The outgoing request: JSON content type, a bearer credential only when
   * the key is set (an empty key is falsy), and a body holding the prompt as
   * `inputs` (left out by `JSON.stringify` when it is `undefined`) with a
   * 50-token limit.
   */
  function BuildRequest(prompt: Option<Json>, key: Option<string>): (r: UpstreamRequest)
    ensures r.url == ModelUrl && r.httpMethod == "POST"
    ensures "Content-Type" in r.headers && r.headers["Content-Type"] == "application/json"
    ensures "Authorization" in r.headers <==> key.Some? && key.value != ""
    ensures "Authorization" in r.headers ==> r.headers["Authorization"] == "Bearer " + key.value
    ensures r.headers.Keys <= {"Content-Type", "Authorization"}
    ensures r.body.JObject? && r.body.fields.Keys <= {"inputs", "parameters"}
    ensures "parameters" in r.body.fields
            && r.body.fields["parameters"] == JObject(map["max_new_tokens" := JNumber(MaxNewTokens)])
    ensures "inputs" in r.body.fields <==> prompt.Some?
    ensures prompt.Some? ==> r.body.fields["inputs"] == prompt.value
  {
    var headers := map["Content-Type" := "application/json"];
    var headers := if key.Some? && key.value != "" then headers["Authorization" := "Bearer " + key.value] else headers;
    var fields := map["parameters" := JObject(map["max_new_tokens" := JNumber(MaxNewTokens)])];
    var fields := if prompt.Some? then fields["inputs" := prompt.value] else fields;
    UpstreamRequest(ModelUrl, "POST", headers, JObject(fields))
  }

  /**
   * The answer picked from the model's reply: the first element's
   * `generated_text` of an array, else the object's own `generated_text`,
   * each only when truthy; otherwise the fixed apology.
   */
  function ExtractAnswer(data: Json): (answer: Json)
    ensures Truthy(Some(answer))
    ensures data.JArray? ==>
              answer == (if Truthy(Property(First(data.items), "generated_text"))
                         then Property(First(data.items), "generated_text").value
                         else JString(Fallback))
    ensures data.JObject? ==>
              answer == (if Truthy(Property(Some(data), "generated_text"))
                         then data.fields["generated_text"]
                         else JString(Fallback))
    ensures !data.JArray? && !data.JObject? ==> answer == JString(Fallback)
  {
    if data.JArray? && Truthy(Property(First(data.items), "generated_text")) then
      Property(First(data.items), "generated_text").value
    else if Truthy(Property(Some(data), "generated_text")) then
      Property(Some(data), "generated_text").value
    else
      JString(Fallback)
  }

  /** A truthy generated text is picked out the same way whether the model replies with a list or a bare object. */
  lemma ReplyShapesAgree(text: Json)
    requires Truthy(Some(text))
    ensures ExtractAnswer(JArray([JObject(map["generated_text" := text])])) == text
    ensures ExtractAnswer(JObject(map["generated_text" := text])) == text
  {
  }

  /** How the call to the model ended: a parsed reply, or a rejected `fetch` / unparseable body. */
  datatype Upstream = Parsed(data: Json) | Failed

  /** What the route sends back: a status and a JSON body, or an unhandled exception. */
  datatype Response = Respond(status: int, body: Json) | Crashed

  /** The outcome of one `POST`: the request made to the model, if any, and the response. */
  datatype Exchange = Exchange(sent: Option<UpstreamRequest>, response: Response)

  /**
   * `POST`: read `prompt` from the body (destructuring `null` throws),
   * call the model, and answer `{answer}` with the default status whatever
   * the model replied; a failed call is not caught.
   */
  function Post(body: Option<Json>, key: Option<string>, upstream: Upstream): (r: Exchange)
    ensures body.None? || body == Some(JNull) ==> r == Exchange(None, Crashed)
    ensures body.Some? && body.value != JNull ==>
              r.sent == Some(BuildRequest(Property(body, "prompt"), key))
    ensures upstream.Failed? ==> r.response == Crashed
    ensures body.Some? && body.value != JNull && upstream.Parsed? ==>
              r.response == Respond(200, JObject(map["answer" := ExtractAnswer(upstream.data)]))
    ensures r.response.Respond? ==>
              && upstream.Parsed?
              && r.response.status == 200
              && r.response.body == JObject(map["answer" := ExtractAnswer(upstream.data)])
  {
    if body.None? || body.value == JNull then Exchange(None, Crashed)
    else
      var request := BuildRequest(Property(body, "prompt"), key);
      match upstream
      case Failed => Exchange(Some(request), Crashed)
      case Parsed(data) => Exchange(Some(request), Respond(200, JObject(map["answer" := ExtractAnswer(data)])))
  }

  /** Only `prompt` is read: bodies that agree on it (whatever their `history`) send the same request. */
  lemma HistoryIgnored(b1: Json, b2: Json, key: Option<string>, upstream: Upstream)
    requires b1 != JNull && b2 != JNull
    requires Property(Some(b1), "prompt") == Property(Some(b2), "prompt")
    ensures Post(Some(b1), key, upstream) == Post(Some(b2), key, upstream)
  {
  }

  /** An empty generated text is falsy, so the apology is returned instead. */
  lemma EmptyGeneratedTextFallsBack(key: Option<string>)
    ensures var data := JArray([JObject(map["generated_text" := JString("")])]);
            Post(Some(JObject(map["prompt" := JString("hola")])), key, Parsed(data)).response
              == Respond(200, JObject(map["answer" := JString(Fallback)]))
  {
  }

  /** An upstream error payload is not mapped to an error status: it is answered with 200 and the apology. */
  lemma UpstreamErrorAnsweredWith200(body: Json, key: Option<string>, message: string)
    requires body != JNull
    ensures Post(Some(body), key, Parsed(JObject(map["error" := JString(message)]))).response
              == Respond(200, JObject(map["answer" := JString(Fallback)]))
  {
  }
}
