/**
 * The call into the upstream panel API (api_post), the service-list fetch
 * that swallows every failure (get_services), and how the reply to an `add`
 * request is read. The HTTP exchange itself is an input: the decoded body,
 * or the fact that the post, the status check or the JSON decoding raised.
 */
module Gateway {
  import opened Wrappers
  import opened JsonValue
  import Text

  /** What requests.post, raise_for_status() and r.json() yield together for one call. */
  datatype Transport = Responded(body: Json) | NoResponse

  /** The exceptions api_post lets out: the missing-key RuntimeError, or a transport failure. */
  datatype ApiError = MissingKey | TransportError

  /** The API key as configured: the environment value stripped, an unset variable read as "". */
  function ConfiguredApiKey(env: Option<string>): string {
    Text.Strip(OrEmpty(env))
  }

  /** The key counts as missing exactly when the variable is unset or holds only whitespace. */
  lemma ConfiguredApiKeyMissing(env: Option<string>)
    ensures ConfiguredApiKey(env) == "" <==> env.None? || Text.AllSpace(env.value)
  {
    Text.StripEmptyIff(OrEmpty(env));
  }

  /** The value api_post returns, or the exception it raises. */
  function PostResult(apiKey: string, reply: Transport): Result<Json, ApiError> {
    if apiKey == "" then
      Err(MissingKey)
    else
      match reply
      case Responded(body) => Ok(body)
      case NoResponse => Err(TransportError)
  }

  /**
   * `data = {"key": apiKey}; data.update(payload)`: every payload entry is
   * sent, and one named "key" replaces the configured key.
   */
  function KeyedData(apiKey: string, payload: map<string, Json>): (data: map<string, Json>)
    ensures data.Keys == payload.Keys + {"key"}
    ensures forall k :: k in payload ==> data[k] == payload[k]
    ensures "key" !in payload ==> data["key"] == JStr(apiKey)
  {
    map["key" := JStr(apiKey)] + payload
  }

  /**
   * api_post: refuses before any request when the key is empty; otherwise
   * posts the keyed payload once and returns the decoded reply.
   */
  method ApiPost(apiKey: string, payload: map<string, Json>, reply: Transport)
    returns (sent: Option<map<string, Json>>, result: Result<Json, ApiError>)
    ensures sent.None? <==> apiKey == ""
    ensures sent.Some? ==> sent.value == KeyedData(apiKey, payload)
    ensures sent.None? ==> result == Err(MissingKey)
    ensures sent.Some? ==> (result.Ok? <==> reply.Responded?)
    ensures sent.Some? && result.Ok? ==> result.value == reply.body
    ensures result == PostResult(apiKey, reply)
  {
    if apiKey == "" {
      return None, Err(MissingKey);
    }
    var data := map["key" := JStr(apiKey)];
    data := data + payload;
    sent := Some(data);
    match reply
    case Responded(body) =>
      result := Ok(body);
    case NoResponse =>
      result := Err(TransportError);
  }

  /** get_services: the decoded body of the `services` call, or [] when api_post raised. */
  function GetServices(apiKey: string, reply: Transport): Json {
    match PostResult(apiKey, reply)
    case Ok(body) => body
    case Err(_) => JArray([])
  }

  /** Whatever made api_post raise, get_services yields the empty list; otherwise the body unchanged. */
  lemma GetServicesFallback(apiKey: string, reply: Transport)
    ensures apiKey == "" || reply.NoResponse? ==> GetServices(apiKey, reply) == JArray([])
    ensures apiKey != "" && reply.Responded? ==> GetServices(apiKey, reply) == reply.body
  {
  }

  /** How the handler reads the reply to an `add` request. */
  datatype AddVerdict =
    | Created(order: Json)    // "Pedido creado": the reply's "order" entry
    | Refused(body: Json)     // "Error al crear el pedido", showing the whole reply
    | RequestFailed           // "Error de red": an exception inside the try block

  /**
   * `if "order" in data: ... data["order"] ...`. Only an object with an
   * "order" entry is a success; "order_id" is not looked at. On a list or a
   * string `in` tests membership or a substring, and a true answer then
   * fails at data["order"]; on a number, a boolean or null `in` raises.
   */
  function ClassifyAdd(data: Json): (v: AddVerdict)
    ensures v.Created? <==> data.JObject? && "order" in data.fields
    ensures v.Created? ==> v.order == data.fields["order"]
    ensures v.Refused? ==> v.body == data
    ensures data.JObject? ==> !v.RequestFailed?
    ensures v.RequestFailed? <==> !data.JObject? && Contains(data, "order") != Some(false)
  {
    match Contains(data, "order")
    case None => RequestFailed
    case Some(false) => Refused(data)
    case Some(true) => if data.JObject? then Created(data.fields["order"]) else RequestFailed
  }

  /** Any exception inside the try block, api_post's included, ends in the network-error message. */
  function AddOutcome(result: Result<Json, ApiError>): AddVerdict {
    match result
    case Ok(data) => ClassifyAdd(data)
    case Err(_) => RequestFailed
  }

  /** A reply that names its order "order_id" alone is a failure in this handler. */
  lemma OrderIdAloneIsRefused(fields: map<string, Json>)
    requires "order_id" in fields && "order" !in fields
    ensures ClassifyAdd(JObject(fields)) == Refused(JObject(fields))
  {
  }

  /** {"order": 555} is a created order 555; {"error": "bad key"} is refused with that body. */
  lemma AddReplyExamples()
    ensures ClassifyAdd(JObject(map["order" := JInt(555)])) == Created(JInt(555))
    ensures ClassifyAdd(JObject(map["error" := JStr("bad key")])) == Refused(JObject(map["error" := JStr("bad key")]))
  {
  }
}
