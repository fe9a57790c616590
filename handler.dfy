/**
 * The entry point (`main`): parse the body, check the provider key, apply the
 * defaults, reject a request without messages, and dispatch to exactly one of
 * the two paths.
 */
module Handler {
  import opened Wrappers
  import opened Json
  import opened Responses
  import opened Sse
  import opened Relay
  import opened Composer

  /** The arguments both paths pass to the provider. */
  datatype Params = Params(messages: Value, model: Value, temperature: Value, maxTokens: Value)

  /** What `main` decides before any provider call. */
  datatype Decision =
    | BadJson                        // the body does not parse
    | MissingKey                     // the provider key is empty
    | InternalError(message: string) // the payload has no `get` (not an object)
    | MissingMessages                // `messages` is absent or falsy
    | Stream(params: Params)         // `stream` is truthy
    | Normal(params: Params)         // `stream` is falsy

  /** Which provider call `main` made. */
  datatype Call = NoCall | StreamCall(params: Params) | OnceCall(params: Params)

  const DefaultModel: Value := Str("glm-4-air")
  const DefaultTemperature: Value := Float(0.7)
  const DefaultMaxTokens: Value := Int(1240)
  const DefaultStream: Value := Bool(true)

  /** `context.req.body or '{}'`: a missing or empty body reads as `{}`. */
  function EffectiveBody(body: Option<string>): (text: string)
    ensures body.None? || body == Some("") ==> text == "{}"
    ensures body.Some? && body.value != "" ==> text == body.value
  {
    if body.None? || body.value == "" then "{}" else body.value
  }

  /** The decision of `main`, checks in source order: parse, key, payload
      type, messages; then defaults and dispatch on `stream`. */
  function Decide(body: Option<string>, apiKey: string, parse: string -> Option<Value>): (d: Decision)
    ensures d == BadJson <==> parse(EffectiveBody(body)).None?
    ensures d == MissingKey <==> parse(EffectiveBody(body)).Some? && apiKey == ""
    ensures d.InternalError? <==>
      parse(EffectiveBody(body)).Some? && apiKey != "" && !parse(EffectiveBody(body)).value.Obj?
    ensures d == MissingMessages <==>
      && parse(EffectiveBody(body)).Some? && apiKey != ""
      && parse(EffectiveBody(body)).value.Obj?
      && !Truthy(Get(parse(EffectiveBody(body)).value.fields, "messages", Arr([])))
    ensures d.Stream? || d.Normal? ==>
      && parse(EffectiveBody(body)).Some? && parse(EffectiveBody(body)).value.Obj?
      && Truthy(d.params.messages)
      && parse(EffectiveBody(body)).value.fields["messages"] == d.params.messages
      && (d.Stream? <==> Truthy(Get(parse(EffectiveBody(body)).value.fields, "stream", DefaultStream)))
  {
    match parse(EffectiveBody(body))
    case None => BadJson
    case Some(payload) =>
      if apiKey == "" then MissingKey
      else if !payload.Obj? then InternalError("'" + TypeName(payload) + "' object has no attribute 'get'")
      else
        var fields := payload.fields;
        var messages := Get(fields, "messages", Arr([]));
        var params := Params(
          messages,
          Get(fields, "model", DefaultModel),
          Get(fields, "temperature", DefaultTemperature),
          Get(fields, "max_tokens", DefaultMaxTokens));
        if !Truthy(messages) then MissingMessages
        else if Truthy(Get(fields, "stream", DefaultStream)) then Stream(params)
        else Normal(params)
  }

  /** The reply to a request that reaches no provider call. */
  function Rejection(d: Decision): (r: Reply)
    requires !d.Stream? && !d.Normal?
    ensures r.body.JsonBody?
    ensures r.status == (if d.InternalError? then 500 else 400)
    ensures d.BadJson? ==> ErrorText(r.body.value) == Some("Invalid JSON in request body")
    ensures d.MissingKey? ==> ErrorText(r.body.value) == Some("OPENAI_API_KEY environment variable is required")
    ensures d.MissingMessages? ==> ErrorText(r.body.value) == Some("Messages array is required")
    ensures d.InternalError? ==> ErrorText(r.body.value) == Some("Internal server error: " + d.message)
  {
    match d
    case BadJson => Reply(400, JsonBody(ErrorObject("Invalid JSON in request body")))
    case MissingKey => Reply(400, JsonBody(ErrorObject("OPENAI_API_KEY environment variable is required")))
    case MissingMessages => Reply(400, JsonBody(ErrorObject("Messages array is required")))
    case InternalError(message) => Reply(500, JsonBody(ErrorObject("Internal server error: " + message)))
  }

  /** `main`: `parse` is `json.loads`, `dumps` is `json.dumps`, `apiKey` is
      the configured provider key, and the two provider calls are functions
      of the parameters they are given. */
  method HandleRequest(
    body: Option<string>, apiKey: string,
    parse: string -> Option<Value>, dumps: Value -> string,
    streamApi: Params -> ChunkStream, onceApi: Params -> Completion)
    returns (reply: Reply, call: Call)
    ensures var d := Decide(body, apiKey, parse);
      && (d.Stream? ==> call == StreamCall(d.params) && reply == StreamReply(dumps, streamApi(d.params)))
      && (d.Normal? ==> call == OnceCall(d.params) && reply == NormalReply(onceApi(d.params)))
      && (!d.Stream? && !d.Normal? ==> call == NoCall && reply == Rejection(d))
  {
    var d := Decide(body, apiKey, parse);
    match d {
      case Stream(params) =>
        reply := StreamChat(dumps, streamApi(params));
        call := StreamCall(params);
      case Normal(params) =>
        reply := NormalReply(onceApi(params));
        call := OnceCall(params);
      case _ =>
        reply := Rejection(d);
        call := NoCall;
    }
  }

  /** A missing or empty body reads as `{}`, which has no messages: with a
      key configured the reply is 400 and no provider call is made. */
  lemma EmptyBodyRejected(body: Option<string>, apiKey: string, parse: string -> Option<Value>)
    requires body.None? || body == Some("")
    requires parse("{}") == Some(Obj(map[]))
    requires apiKey != ""
    ensures Decide(body, apiKey, parse) == MissingMessages
    ensures Rejection(Decide(body, apiKey, parse)).status == 400
  {
  }

  /** For any object payload with truthy `messages` and a key configured,
      whichever keys it supplies: each supplied value reaches the provider
      unchanged, each absent one takes its default (model `glm-4-air`,
      temperature 0.7, max_tokens 1240), and `stream` (default true) selects
      the path. */
  lemma ParamsFromPayload(body: Option<string>, apiKey: string, parse: string -> Option<Value>, fields: map<string, Value>)
    requires parse(EffectiveBody(body)) == Some(Obj(fields)) && apiKey != ""
    requires Truthy(Get(fields, "messages", Arr([])))
    ensures var d := Decide(body, apiKey, parse);
      && (d.Stream? || d.Normal?)
      && d.params.messages == fields["messages"]
      && ("model" in fields ==> d.params.model == fields["model"])
      && ("model" !in fields ==> d.params.model == Str("glm-4-air"))
      && ("temperature" in fields ==> d.params.temperature == fields["temperature"])
      && ("temperature" !in fields ==> d.params.temperature == Float(0.7))
      && ("max_tokens" in fields ==> d.params.maxTokens == fields["max_tokens"])
      && ("max_tokens" !in fields ==> d.params.maxTokens == Int(1240))
      && ("stream" in fields ==> (d.Stream? <==> Truthy(fields["stream"])))
      && ("stream" !in fields ==> d.Stream?)
  {
  }

  /** The usual one-shot request, `messages` and `stream: false`: the
      one-shot path with every other parameter defaulted. */
  lemma OneShotWithDefaults(body: Option<string>, apiKey: string, parse: string -> Option<Value>, messages: Value)
    requires Truthy(messages) && apiKey != ""
    requires parse(EffectiveBody(body)) == Some(Obj(map["messages" := messages, "stream" := Bool(false)]))
    ensures Decide(body, apiKey, parse) == Normal(Params(messages, Str("glm-4-air"), Float(0.7), Int(1240)))
  {
  }
}
